/**
 * The sums that the scope-shape walk adds up when it opens and closes a function, read off the
 * tree: one term for each function, from its visible prefix and its own nodes.
 */
module ShapeSums {
  import opened Checked
  import opened Ast
  import opened AstTree
  import opened ShapeEvents
  import opened ShapeTree
  import opened ShapeWalk
  import opened ShapeCounts
  import opened ShapePrefixes

  /** A function: what is visible to it, how deep it is nested, and its own nodes in order. */
  datatype Scope = Scope(prefix: Prefix, depth: nat, heads: seq<Head>)

  function TreeScopes(mode: Mode, around: Prefix, depth: nat, before: seq<Head>, t: Tree): seq<Scope>
    decreases t
  {
    if t.head.FunctionHead? then
      var here := Beyond(around, Bound(mode, before));
      [Scope(here, depth + 1, [t.head] + Levels(t.parts))] + PartsScopes(mode, here, depth + 1, [t.head], t.parts)
    else PartsScopes(mode, around, depth, before + [t.head], t.parts)
  }

  function PartsScopes(mode: Mode, around: Prefix, depth: nat, before: seq<Head>, parts: seq<Tree>): seq<Scope>
    decreases parts
  {
    if |parts| == 0 then []
    else
      TreeScopes(mode, around, depth, before, parts[0])
      + PartsScopes(mode, around, depth, before + Level(parts[0]), parts[1..])
  }

  /** What a node counts for in its own function. */
  function OwnCount(c: Counter, head: Head): nat {
    if c == References then (if IsMention(head) then 1 else 0) else NodeCount(c, head)
  }

  function OwnCounts(c: Counter, heads: seq<Head>): nat {
    if |heads| == 0 then 0 else OwnCounts(c, heads[..|heads| - 1]) + OwnCount(c, heads[|heads| - 1])
  }

  datatype Sums = Sums(pairs: nat, operations: nat, work: nat, scan: nat)

  function Add(a: Sums, b: Sums): Sums {
    Sums(a.pairs + b.pairs, a.operations + b.operations, a.work + b.work, a.scan + b.scan)
  }

  /** Key lookups of a function: four for each reference and each binding, one for each label and each goto. */
  function Lookups(references: nat, bindings: nat, gotos: nat, labels: nat): nat {
    4 * references + 4 * bindings + gotos + labels
  }

  function Times(a: nat, b: nat): nat { a * b }

  /** In Lua 5.5, the scan of a function's name table is quadratic in its references. */
  function Scan(mode: Mode, references: nat, bytes: nat): nat {
    if mode.lua55 then 4 * Times(references, references) + 2 * Times(references, bytes) + 128 * references else 0
  }

  /**
   * The term of a nested function: close paths paired with bindings; lookups for its prefix and
   * its own; each lookup compares at most all key bytes that are visible; and the scan.
   */
  function ScopeSums(mode: Mode, s: Scope): Sums {
    var bound := Bound(mode, s.heads);
    var references, bytes := OwnCounts(References, s.heads), OwnCounts(ReferenceSize, s.heads);
    var lookups := Lookups(references, bound.bindings, OwnCounts(Gotos, s.heads), OwnCounts(Labels, s.heads));
    Sums(Times(OwnCounts(ClosePathCount, s.heads), bound.bindings),
         2 * s.prefix.bindings + lookups,
         Times(2 * s.prefix.bindings, s.prefix.keys) + Times(lookups, s.prefix.keys + bound.keys),
         Scan(mode, references, bytes))
  }

  function TotalSums(mode: Mode, scopes: seq<Scope>): Sums {
    if |scopes| == 0 then Sums(0, 0, 0, 0) else Add(ScopeSums(mode, scopes[0]), TotalSums(mode, scopes[1..]))
  }

  function Deepest(scopes: seq<Scope>): nat {
    if |scopes| == 0 then 0 else Max(scopes[0].depth, Deepest(scopes[1..]))
  }

  function SumsOf(t: Totals): Sums {
    Sums(t.closeBindingPairs, t.keyCompareOps, t.keyCompareWork, t.distinctScanWork)
  }

  lemma {:induction false} SumsOfMore(mode: Mode, a: seq<Scope>, b: seq<Scope>)
    ensures TotalSums(mode, a + b) == Add(TotalSums(mode, a), TotalSums(mode, b))
  {
    hide ScopeSums;
    if |a| == 0 {
      assert a + b == b;
    } else {
      assert (a + b)[1..] == a[1..] + b;
      SumsOfMore(mode, a[1..], b);
    }
  }

  lemma {:induction false} DeepestOfMore(a: seq<Scope>, b: seq<Scope>)
    ensures Deepest(a + b) == Max(Deepest(a), Deepest(b))
  {
    if |a| == 0 {
      assert a + b == b;
    } else {
      assert (a + b)[1..] == a[1..] + b;
      DeepestOfMore(a[1..], b);
    }
  }

  lemma SumsOfOne(mode: Mode, s: Scope)
    ensures TotalSums(mode, [s]) == ScopeSums(mode, s) && Deepest([s]) == s.depth
  {
    hide ScopeSums;
    assert [s][1..] == [];
  }

  // The counters of a function are counts of its own nodes.

  predicate IsPerFunction(c: Counter) { c in {References, ReferenceSize, Labels, Gotos, ClosePathCount} }

  function FrameOf(c: Counter, f: Frame): nat
    requires IsPerFunction(c)
  {
    match c
    case References => f.currentReferences
    case ReferenceSize => f.currentReferenceNameBytes
    case Labels => f.currentLabels
    case Gotos => f.currentGotos
    case ClosePathCount => f.currentClosePaths
  }

  lemma ReferenceFrameCounts(c: Counter, s: Shape, name: Name)
    requires IsPerFunction(c)
    ensures FrameOf(c, OnReference(s, name).frame) == FrameOf(c, s.frame) + EventCount(c, Reference(name))
    ensures OnReference(s, name).frame.depth == s.frame.depth
  {
    hide Probes, ComparedBytes, Remember;
  }

  lemma NextFrameCounts(c: Counter, s: Shape, event: Event)
    requires IsPerFunction(c) && !event.Nested?
    ensures FrameOf(c, Next(s, event).frame) == FrameOf(c, s.frame) + EventCount(c, event)
    ensures Next(s, event).frame.depth == s.frame.depth
  {
    hide OnReference;
    match c {
      case References =>
      case ReferenceSize =>
      case Labels =>
      case Gotos =>
      case ClosePathCount =>
    }
    if event.Reference? {
      ReferenceFrameCounts(c, s, event.name);
    }
  }

  lemma {:induction false} FrameCounts(c: Counter, start: Shape, events: Events)
    requires IsPerFunction(c)
    ensures FrameOf(c, Fold(start, events).frame) == FrameOf(c, start.frame) + EventsCount(c, Flat(events))
    ensures Fold(start, events).frame.depth == start.frame.depth
  {
    if |events| == 0 {
      NoEvents();
      assert events == [];
    } else {
      var n := |events| - 1;
      var before, event := events[..n], events[n];
      FrameCounts(c, start, before);
      hide Fold, FrameOf, EventsCount, EventCount, Next, Flat;
      FoldLast(start, events);
      FlatLast(before, event);
      assert events == before + [event];
      if event.Nested? {
        NestedRestores(Fold(start, before), event.body);
        assert Flat(before) + [] == Flat(before);
      } else {
        NextFrameCounts(c, Fold(start, before), event);
        CountOfConcat(c, Flat(before), [event]);
        CountOfOne(c, event);
      }
    }
  }

  lemma {:induction false} HeadsCount(c: Counter, heads: seq<Head>)
    requires IsPerFunction(c)
    ensures EventsCount(c, HeadsEvents(heads)) == OwnCounts(c, heads)
  {
    hide HeadEvents, EventsCount, OwnCount;
    if |heads| == 0 {
      NoCount(c);
    } else {
      var n := |heads| - 1;
      HeadsCount(c, heads[..n]);
      CountOfConcat(c, HeadsEvents(heads[..n]), HeadEvents(heads[n]));
      OneHeadCounts(c, heads[n]);
    }
  }

  lemma OneHeadCounts(c: Counter, head: Head)
    requires IsPerFunction(c)
    ensures EventsCount(c, HeadEvents(head)) == OwnCount(c, head)
  {
    hide HeadEvents, EventsCount, NodeCount;
    if IsMention(head) {
      TextCounts(c, Mention, head.text);
      MentionIsOne(c, head);
    } else {
      HeadCounts(c, head);
      OnlyVarsRefer(head);
    }
  }

  lemma MentionIsOne(c: Counter, head: Head)
    requires IsMention(head)
    ensures NodeCount(References, head) == 0
  {
  }

  lemma OnlyVarsRefer(head: Head)
    ensures NodeCount(References, head) == if head.VarHead? then 1 else 0
  {
  }

  // The walk adds one term for each function.

  ghost predicate Grew(mode: Mode, before: Totals, after: Totals, scopes: seq<Scope>) {
    && SumsOf(after) == Add(SumsOf(before), TotalSums(mode, scopes))
    && after.maxDepth == Max(before.maxDepth, Deepest(scopes))
  }

  lemma GrewChain(mode: Mode, a: Totals, b: Totals, c: Totals, p: seq<Scope>, q: seq<Scope>)
    requires Grew(mode, a, b, p) && Grew(mode, b, c, q)
    ensures Grew(mode, a, c, p + q)
  {
    hide TotalSums, Deepest;
    SumsOfMore(mode, p, q);
    DeepestOfMore(p, q);
  }

  lemma GrewNothing(mode: Mode, a: Totals, b: Totals)
    requires SumsOf(a) == SumsOf(b) && a.maxDepth == b.maxDepth
    ensures Grew(mode, a, b, [])
  {
  }

  lemma {:induction false} PlainAddsNothing(mode: Mode, s: Shape, plain: Events)
    requires forall i :: 0 <= i < |plain| ==> !plain[i].Nested?
    ensures Grew(mode, s.totals, Fold(s, plain).totals, [])
    decreases plain
  {
    if |plain| == 0 {
      GrewNothing(mode, s.totals, s.totals);
    } else {
      var t := Next(s, plain[0]);
      NextAddsNothing(s, plain[0]);
      hide Next, Grew;
      PlainAddsNothing(mode, t, plain[1..]);
      GrewNothing(mode, s.totals, t.totals);
      GrewChain(mode, s.totals, t.totals, Fold(t, plain[1..]).totals, [], []);
      NoScopes();
    }
  }

  lemma NoScopes()
    ensures var none: seq<Scope> := []; none + none == none
  {
  }

  lemma NextAddsNothing(s: Shape, event: Event)
    requires !event.Nested?
    ensures SumsOf(Next(s, event).totals) == SumsOf(s.totals) && Next(s, event).totals.maxDepth == s.totals.maxDepth
  {
    hide Probes, ComparedBytes, Remember;
  }

  /** The state at a node: `events` have happened since the function around it was opened, and these are its nodes. */
  ghost predicate Here(start: Shape, events: Events, before: seq<Head>, s: Shape) {
    JustOpened(start) && s == Fold(start, events) && Flat(events) == HeadsEvents(before)
  }

  lemma HereAfter(start: Shape, events: Events, before: seq<Head>, s: Shape, more: Events, heads: seq<Head>)
    requires Here(start, events, before, s) && Flat(more) == HeadsEvents(heads)
    ensures Here(start, events + more, before + heads, Fold(s, more))
  {
    hide Fold, Flat, HeadsEvents;
    FoldOfConcat(start, events, more);
    FlatOfConcat(events, more);
    HeadsOfConcat(before, heads);
  }

  lemma {:induction false} TreeAddsSums(start: Shape, events: Events, before: seq<Head>, s: Shape, t: Tree)
    requires Here(start, events, before, s)
    ensures Grew(ModeOf(start), s.totals, Fold(s, TreeEvents(t)).totals,
                 TreeScopes(ModeOf(start), Around(start.frame), start.frame.depth, before, t))
    decreases t, 1
  {
    hide Fold, Here, Grew, HeadEvents, PartsEvents, PartsScopes, Flat, HeadsEvents, Around;
    if t.head.FunctionHead? {
      FunctionAddsSums(start, events, before, s, t);
    } else {
      var own, rest := HeadEvents(t.head), PartsEvents(t.parts);
      var mode, then_ := ModeOf(start), Fold(s, own);
      HeadsArePlain(t.head);
      OneHead(t.head);
      PlainAddsNothing(mode, s, own);
      HereAfter(start, events, before, s, own, [t.head]);
      PartsAddSums(start, events + own, before + [t.head], then_, t.parts);
      FoldOfConcat(s, own, rest);
      var scopes := PartsScopes(mode, Around(start.frame), start.frame.depth, before + [t.head], t.parts);
      GrewChain(mode, s.totals, then_.totals, Fold(then_, rest).totals, [], scopes);
      assert [] + scopes == scopes;
    }
  }

  lemma OneHead(head: Head)
    ensures HeadsEvents([head]) == HeadEvents(head)
  {
    hide HeadEvents;
    HeadsLast([], head);
    assert [] + [head] == [head] && HeadsEvents([]) == [] && [] + HeadEvents(head) == HeadEvents(head);
  }

  lemma {:induction false} PartsAddSums(start: Shape, events: Events, before: seq<Head>, s: Shape, parts: seq<Tree>)
    requires Here(start, events, before, s)
    ensures Grew(ModeOf(start), s.totals, Fold(s, PartsEvents(parts)).totals,
                 PartsScopes(ModeOf(start), Around(start.frame), start.frame.depth, before, parts))
    decreases parts
  {
    hide Here, Grew, TreeEvents, TreeScopes, Level, Around;
    if |parts| == 0 {
      GrewNothing(ModeOf(start), s.totals, s.totals);
    } else {
      hide Fold;
      var mode, first, rest := ModeOf(start), TreeEvents(parts[0]), PartsEvents(parts[1..]);
      var then_ := Fold(s, first);
      TreeAddsSums(start, events, before, s, parts[0]);
      LevelIsFlat(parts[0]);
      HereAfter(start, events, before, s, first, Level(parts[0]));
      PartsAddSums(start, events + first, before + Level(parts[0]), then_, parts[1..]);
      FoldOfConcat(s, first, rest);
      GrewChain(mode, s.totals, then_.totals, Fold(then_, rest).totals,
                TreeScopes(mode, Around(start.frame), start.frame.depth, before, parts[0]),
                PartsScopes(mode, Around(start.frame), start.frame.depth, before + Level(parts[0]), parts[1..]));
    }
  }

  lemma {:induction false} FunctionAddsSums(start: Shape, events: Events, before: seq<Head>, s: Shape, t: Tree)
    requires Here(start, events, before, s) && t.head.FunctionHead?
    ensures Grew(ModeOf(start), s.totals, Fold(s, TreeEvents(t)).totals,
                 TreeScopes(ModeOf(start), Around(start.frame), start.frame.depth, before, t))
    decreases t, 0
  {
    hide Fold, Grew, HeadEvents, PartsEvents, PartsScopes, Flat, HeadsEvents, Leave, Enter, Bound, ScopeSums;
    var mode, own, rest := ModeOf(start), HeadEvents(t.head), PartsEvents(t.parts);
    var entered := Enter(s);
    var begun, closed := Fold(entered, own), Fold(Fold(entered, own), rest);
    var here := Beyond(Around(start.frame), Bound(mode, before));
    EnteredHere(start, events, before, s);
    HeadsArePlain(t.head);
    OneHead(t.head);
    NothingHappened(entered);
    HereAfter(entered, [], [], entered, own, [t.head]);
    assert [] + own == own && [] + [t.head] == [t.head];
    PlainAddsNothing(mode, entered, own);
    PartsAddSums(entered, own, [t.head], begun, t.parts);
    var scopes := PartsScopes(mode, here, start.frame.depth + 1, [t.head], t.parts);
    GrewChain(mode, entered.totals, begun.totals, closed.totals, [], scopes);
    assert [] + scopes == scopes;
    FoldOfConcat(entered, own, rest);
    FoldOne(s, Nested(NodeEvents(t)));
    var scope := Scope(here, start.frame.depth + 1, [t.head] + Levels(t.parts));
    BodyIsFlat(t);
    LeavingAddsScope(s, here, NodeEvents(t), scope, scopes);
  }

  lemma NothingHappened(start: Shape)
    requires JustOpened(start)
    ensures Here(start, [], [], start)
  {
    assert Fold(start, []) == start;
    NoEvents();
  }

  lemma BodyIsFlat(t: Tree)
    requires t.head.FunctionHead?
    ensures Flat(NodeEvents(t)) == HeadsEvents([t.head] + Levels(t.parts))
  {
    hide HeadEvents, Flat, HeadsEvents;
    FlatOfConcat(HeadEvents(t.head), PartsEvents(t.parts));
    HeadsArePlain(t.head);
    LevelsAreFlat(t.parts);
    HeadsOfConcat([t.head], Levels(t.parts));
    OneHead(t.head);
  }

  /** Opening a function: its prefix is what was bound around it so far. */
  lemma EnteredHere(start: Shape, events: Events, before: seq<Head>, s: Shape)
    requires Here(start, events, before, s)
    ensures JustOpened(Enter(s)) && ModeOf(Enter(s)) == ModeOf(s) == ModeOf(start)
    ensures Around(s.frame) == Beyond(Around(start.frame), Bound(ModeOf(start), before)) == Around(Enter(s).frame)
    ensures s.frame.depth == start.frame.depth && Enter(s).frame.depth == start.frame.depth + 1
  {
    hide Fold, Flat, HeadsEvents, Bound, OwnBindings, OwnKeys, Mentions;
    FoldIsAtLevel(start, events);
    BoundIsOwn(ModeOf(start), before, events);
    EnterAddsPrefix(s);
    FrameCounts(Labels, start, events);
  }

  /** Opening and closing a function adds its own term. */
  lemma LeavingAddsScope(s: Shape, here: Prefix, body: Events, scope: Scope, inner: seq<Scope>)
    requires Around(s.frame) == here && scope.prefix == here && scope.depth == s.frame.depth + 1
    requires Flat(body) == HeadsEvents(scope.heads)
    requires Grew(ModeOf(s), Enter(s).totals, Fold(Enter(s), body).totals, inner)
    ensures Grew(ModeOf(s), s.totals, Leave(Fold(Enter(s), body), s).totals, [scope] + inner)
  {
    hide Fold, Flat, HeadsEvents, Bound, TotalSums, Deepest, OwnCounts, OwnBindings, OwnKeys, Mentions, EventsCount;
    var mode, entered := ModeOf(s), Enter(s);
    var closed := Fold(entered, body);
    FoldIsAtLevel(entered, body);
    BoundIsOwn(mode, scope.heads, body);
    forall c | IsPerFunction(c) ensures FrameOf(c, closed.frame) == OwnCounts(c, scope.heads) {
      FrameCounts(c, entered, body);
      HeadsCount(c, scope.heads);
    }
    FramesByName(closed.frame, scope.heads);
    SumsOfMore(mode, [scope], inner);
    DeepestOfMore([scope], inner);
    SumsOfOne(mode, scope);
    ClosingTerm(mode, s, closed, scope);
  }

  lemma FramesByName(f: Frame, heads: seq<Head>)
    requires forall c: Counter | IsPerFunction(c) :: FrameOf(c, f) == OwnCounts(c, heads)
    ensures f.currentReferences == OwnCounts(References, heads)
    ensures f.currentReferenceNameBytes == OwnCounts(ReferenceSize, heads)
    ensures f.currentLabels == OwnCounts(Labels, heads) && f.currentGotos == OwnCounts(Gotos, heads)
    ensures f.currentClosePaths == OwnCounts(ClosePathCount, heads)
  {
    hide OwnCounts;
    assert FrameOf(References, f) == f.currentReferences && FrameOf(ReferenceSize, f) == f.currentReferenceNameBytes;
    assert FrameOf(Labels, f) == f.currentLabels && FrameOf(Gotos, f) == f.currentGotos;
    assert FrameOf(ClosePathCount, f) == f.currentClosePaths;
  }

  lemma ClosingTerm(mode: Mode, s: Shape, closed: Shape, scope: Scope)
    requires ModeOf(s) == mode == ModeOf(closed) && Around(s.frame) == scope.prefix && scope.depth == s.frame.depth + 1
    requires closed.frame.inheritedKeyBytes == scope.prefix.keys
    requires Prefix(closed.frame.currentBindings, closed.frame.currentKeyBytes) == Bound(mode, scope.heads)
    requires closed.frame.currentReferences == OwnCounts(References, scope.heads)
    requires closed.frame.currentReferenceNameBytes == OwnCounts(ReferenceSize, scope.heads)
    requires closed.frame.currentLabels == OwnCounts(Labels, scope.heads)
    requires closed.frame.currentGotos == OwnCounts(Gotos, scope.heads)
    requires closed.frame.currentClosePaths == OwnCounts(ClosePathCount, scope.heads)
    ensures SumsOf(Leave(closed, s).totals).pairs == closed.totals.closeBindingPairs + ScopeSums(mode, scope).pairs
    ensures SumsOf(Leave(closed, s).totals).scan == closed.totals.distinctScanWork + ScopeSums(mode, scope).scan
    ensures SumsOf(Leave(closed, s).totals).operations - closed.totals.keyCompareOps
            + SumsOf(Enter(s).totals).operations - s.totals.keyCompareOps == ScopeSums(mode, scope).operations
    ensures SumsOf(Leave(closed, s).totals).work - closed.totals.keyCompareWork
            + SumsOf(Enter(s).totals).work - s.totals.keyCompareWork == ScopeSums(mode, scope).work
    ensures Leave(closed, s).totals.maxDepth == closed.totals.maxDepth
    ensures Enter(s).totals.maxDepth == Max(s.totals.maxDepth, scope.depth)
    ensures Enter(s).totals.closeBindingPairs == s.totals.closeBindingPairs
    ensures Enter(s).totals.distinctScanWork == s.totals.distinctScanWork
  {
    hide Bound, OwnCounts, Handles, HeldBytes, ScanWork;
  }

  // A whole module.

  function ModuleScopes(mode: Mode, root: Block): seq<Scope> {
    TreeScopes(mode, Prefix(1, SELF_KEY_BYTES), 1, [], BlockTree(root))
  }

  /** The root function, in which `_ENV` is bound first; it is never closed, so it pairs nothing. */
  function RootSums(mode: Mode, root: Block): Sums {
    var heads := Level(BlockTree(root));
    var bound := Bound(mode, heads);
    var references, bytes := OwnCounts(References, heads), OwnCounts(ReferenceSize, heads);
    var lookups := Lookups(references, 1 + bound.bindings, OwnCounts(Gotos, heads), OwnCounts(Labels, heads));
    Sums(0, lookups, Times(lookups, SELF_KEY_BYTES + bound.keys), Scan(mode, references, bytes))
  }

  /** Pairs, lookups, compared bytes, scan work and depth of a module, function by function. */
  lemma SumsOfModule(lua55: bool, distinct: bool, root: Block)
    ensures var t := Finish(Fold(Root(lua55, distinct), BlockEvents(root))).totals;
            var mode := Mode(lua55, distinct);
            && SumsOf(t) == Add(TotalSums(mode, ModuleScopes(mode, root)), RootSums(mode, root))
            && t.maxDepth == Max(1, Deepest(ModuleScopes(mode, root)))
  {
    hide Fold, BlockEvents, BlockTree, TreeScopes, TreeEvents, Level, Bound, OwnCounts, TotalSums, Deepest, Flat,
      HeadsEvents, OwnBindings, OwnKeys, Mentions, EventsCount, ScanWork;
    var start, mode := Root(lua55, distinct), Mode(lua55, distinct);
    var t, heads := BlockTree(root), Level(BlockTree(root));
    var last := Fold(start, BlockEvents(root));
    BlockShape(root);
    NothingHappened(start);
    TreeAddsSums(start, [], [], start, t);
    LevelIsFlat(t);
    FoldIsAtLevel(start, BlockEvents(root));
    BoundIsOwn(mode, heads, BlockEvents(root));
    forall c | IsPerFunction(c) ensures FrameOf(c, last.frame) == OwnCounts(c, heads) {
      FrameCounts(c, start, BlockEvents(root));
      HeadsCount(c, heads);
    }
    FramesByName(last.frame, heads);
  }
}
