/**
 * The visible prefix of every nested function, read off the tree: what the functions around it
 * have bound by the time the walk reaches it.
 */
module ShapePrefixes {
  import opened Checked
  import opened Ast
  import opened AstTree
  import opened ShapeEvents
  import opened ShapeTree
  import opened ShapeWalk

  // What a sequence of nodes of one function binds, in the order of the walk.

  predicate MentionedIn(heads: seq<Head>, name: seq<Byte>) {
    exists i :: 0 <= i < |heads| && IsMention(heads[i]) && heads[i].text.items == name
  }

  /**
   * A node binds its name, its hidden binding or its `self`. In Lua 5.5 a variable may be an
   * implicit global: the first walk counts one binding for each mention, the second two for each
   * name mentioned in the function for the first time.
   */
  function HeadBindings(mode: Mode, before: seq<Head>, head: Head): nat {
    match head
    case LocalNameHead(_) => 1
    case GlobalFunctionHead => 1
    case GenericForHead => 1
    case FunctionHead(hasSelf, _, _) => if hasSelf then 1 else 0
    case TextHead(Mention, text) =>
      if !mode.lua55 then 0 else if !mode.distinct then 1 else if MentionedIn(before, text.items) then 0 else 2
    case _ => 0
  }

  /** Key bytes: of names that are declared, of labels, of `self`, and of implicit globals. */
  function HeadKeys(mode: Mode, before: seq<Head>, head: Head): nat {
    match head
    case FunctionHead(hasSelf, _, _) => if hasSelf then SELF_KEY_BYTES else 0
    case TextHead(Key, text) => text.Capacity()
    case TextHead(Mention, text) =>
      if mode.lua55 && !(mode.distinct && MentionedIn(before, text.items)) then text.Capacity() else 0
    case _ => 0
  }

  function Bound(mode: Mode, heads: seq<Head>): Prefix {
    if |heads| == 0 then Prefix(0, 0)
    else
      var n := |heads| - 1;
      var before := Bound(mode, heads[..n]);
      Prefix(before.bindings + HeadBindings(mode, heads[..n], heads[n]),
             before.keys + HeadKeys(mode, heads[..n], heads[n]))
  }

  /** The nodes of a tree that belong to the function around it, in the order of the walk. */
  function Level(t: Tree): seq<Head>
    decreases t
  {
    if t.head.FunctionHead? then [] else [t.head] + Levels(t.parts)
  }

  function Levels(parts: seq<Tree>): seq<Head>
    decreases parts
  {
    if |parts| == 0 then [] else Level(parts[0]) + Levels(parts[1..])
  }

  function Beyond(around: Prefix, more: Prefix): Prefix {
    Prefix(around.bindings + more.bindings, around.keys + more.keys)
  }

  /**
   * One prefix for each function in a tree, outer ones first. `before` are the nodes of the
   * function around the tree that come before it, and `around` is that function's own prefix.
   */
  function TreePrefixes(mode: Mode, around: Prefix, before: seq<Head>, t: Tree): seq<Prefix>
    decreases t
  {
    if t.head.FunctionHead? then
      var here := Beyond(around, Bound(mode, before));
      [here] + PartsPrefixes(mode, here, [t.head], t.parts)
    else PartsPrefixes(mode, around, before + [t.head], t.parts)
  }

  function PartsPrefixes(mode: Mode, around: Prefix, before: seq<Head>, parts: seq<Tree>): seq<Prefix>
    decreases parts
  {
    if |parts| == 0 then []
    else
      TreePrefixes(mode, around, before, parts[0])
      + PartsPrefixes(mode, around, before + Level(parts[0]), parts[1..])
  }

  // The events of one level, without the functions in it.

  function Flat(events: Events): Events {
    if |events| == 0 then []
    else
      var n := |events| - 1;
      Flat(events[..n]) + if events[n].Nested? then [] else [events[n]]
  }

  function HeadsEvents(heads: seq<Head>): Events {
    if |heads| == 0 then []
    else HeadsEvents(heads[..|heads| - 1]) + HeadEvents(heads[|heads| - 1])
  }

  lemma FlatLast(events: Events, event: Event)
    ensures Flat(events + [event]) == Flat(events) + if event.Nested? then [] else [event]
  {
    assert (events + [event])[..|events|] == events;
  }

  lemma {:induction false} FlatOfConcat(a: Events, b: Events)
    ensures Flat(a + b) == Flat(a) + Flat(b)
    decreases b
  {
    if |b| == 0 {
      assert a + b == a;
    } else {
      var n := |b| - 1;
      FlatOfConcat(a, b[..n]);
      assert a + b == a + b[..n] + [b[n]] && b == b[..n] + [b[n]];
      FlatLast(a + b[..n], b[n]);
      FlatLast(b[..n], b[n]);
    }
  }

  lemma HeadsLast(heads: seq<Head>, head: Head)
    ensures HeadsEvents(heads + [head]) == HeadsEvents(heads) + HeadEvents(head)
  {
    hide HeadEvents;
    assert (heads + [head])[..|heads|] == heads;
  }

  lemma {:induction false} HeadsOfConcat(a: seq<Head>, b: seq<Head>)
    ensures HeadsEvents(a + b) == HeadsEvents(a) + HeadsEvents(b)
    decreases b
  {
    hide HeadEvents;
    if |b| == 0 {
      assert a + b == a;
    } else {
      var n := |b| - 1;
      HeadsOfConcat(a, b[..n]);
      assert a + b == a + b[..n] + [b[n]] && b == b[..n] + [b[n]];
      HeadsLast(a + b[..n], b[n]);
      HeadsLast(b[..n], b[n]);
    }
  }

  lemma {:induction false} FlatKeepsPlain(events: Events)
    requires forall i :: 0 <= i < |events| ==> !events[i].Nested?
    ensures Flat(events) == events
  {
    if |events| != 0 {
      var n := |events| - 1;
      FlatKeepsPlain(events[..n]);
      assert events == events[..n] + [events[n]];
    }
  }

  lemma HeadsArePlain(head: Head)
    ensures forall i :: 0 <= i < |HeadEvents(head)| ==> !HeadEvents(head)[i].Nested?
    ensures Flat(HeadEvents(head)) == HeadEvents(head)
  {
    FlatKeepsPlain(HeadEvents(head));
  }

  /** Without the functions in it, a tree has the events of its level. */
  lemma {:induction false} LevelIsFlat(t: Tree)
    ensures Flat(TreeEvents(t)) == HeadsEvents(Level(t))
    decreases t
  {
    hide HeadEvents, Flat, HeadsEvents;
    if t.head.FunctionHead? {
      FlatLast([], Nested(NodeEvents(t)));
      assert [] + [Nested(NodeEvents(t))] == [Nested(NodeEvents(t))];
      NoEvents();
    } else {
      FlatOfConcat(HeadEvents(t.head), PartsEvents(t.parts));
      HeadsArePlain(t.head);
      LevelsAreFlat(t.parts);
      HeadsOfConcat([t.head], Levels(t.parts));
      HeadsLast([], t.head);
      assert [] + [t.head] == [t.head];
      NoEvents();
      assert [] + HeadEvents(t.head) == HeadEvents(t.head);
    }
  }

  lemma NoEvents()
    ensures Flat([]) == [] && HeadsEvents([]) == []
  {
  }

  lemma {:induction false} LevelsAreFlat(parts: seq<Tree>)
    ensures Flat(PartsEvents(parts)) == HeadsEvents(Levels(parts))
    decreases parts
  {
    hide Flat, HeadsEvents, TreeEvents, Level;
    if |parts| == 0 {
      NoEvents();
    } else {
      LevelIsFlat(parts[0]);
      LevelsAreFlat(parts[1..]);
      FlatOfConcat(TreeEvents(parts[0]), PartsEvents(parts[1..]));
      HeadsOfConcat(Level(parts[0]), Levels(parts[1..]));
    }
  }

  // Both count the same.

  lemma {:induction false} OwnIsFlat(mode: Mode, events: Events)
    ensures OwnBindings(mode, events) == OwnBindings(mode, Flat(events))
    ensures OwnKeys(mode, events) == OwnKeys(mode, Flat(events))
    ensures forall name :: Mentions(events, name) <==> Mentions(Flat(events), name)
  {
    hide Mentions, OwnBindings, OwnKeys, Flat;
    if |events| == 0 {
      NoEvents();
      assert events == [];
    } else {
      var n := |events| - 1;
      OwnIsFlat(mode, events[..n]);
      assert events == events[..n] + [events[n]];
      OwnLast(mode, events[..n], events[n]);
      OwnLast(mode, Flat(events[..n]), events[n]);
      FlatLast(events[..n], events[n]);
      assert Flat(events[..n]) + [] == Flat(events[..n]);
    }
  }

  ghost predicate SameLevel(mode: Mode, heads: seq<Head>, events: Events) {
    && Bound(mode, heads) == Prefix(OwnBindings(mode, events), OwnKeys(mode, events))
    && forall name :: MentionedIn(heads, name) <==> Mentions(events, name)
  }

  lemma MentionedLast(heads: seq<Head>, head: Head)
    ensures forall name :: MentionedIn(heads + [head], name) <==>
              MentionedIn(heads, name) || (IsMention(head) && head.text.items == name)
  {
    var more := heads + [head];
    forall name ensures MentionedIn(more, name) <==>
        MentionedIn(heads, name) || (IsMention(head) && head.text.items == name) {
      if MentionedIn(heads, name) {
        var i :| 0 <= i < |heads| && IsMention(heads[i]) && heads[i].text.items == name;
        assert IsMention(more[i]) && more[i].text.items == name;
      }
      if IsMention(head) && head.text.items == name {
        assert IsMention(more[|heads|]) && more[|heads|].text.items == name;
      }
    }
  }

  lemma BoundLast(mode: Mode, heads: seq<Head>, head: Head)
    ensures Bound(mode, heads + [head])
            == Beyond(Bound(mode, heads),
                      Prefix(HeadBindings(mode, heads, head), HeadKeys(mode, heads, head)))
  {
    hide HeadBindings, HeadKeys;
    assert (heads + [head])[..|heads|] == heads;
  }

  /** One event that mentions nothing, or the mention of a head. */
  lemma EventAtLevel(mode: Mode, heads: seq<Head>, events: Events, event: Event)
    requires SameLevel(mode, heads, events) && !event.Reference?
    ensures OwnBindings(mode, events + [event])
            == OwnBindings(mode, events) + if event.Binding? || event.SelfBinding? then 1 else 0
    ensures OwnKeys(mode, events + [event])
            == OwnKeys(mode, events)
               + if event.SelfBinding? then SELF_KEY_BYTES else if event.KeyBytes? then event.bytes else 0
    ensures forall name :: Mentions(events + [event], name) <==> Mentions(events, name)
  {
    hide OwnBindings, OwnKeys, Mentions;
    OwnLast(mode, events, event);
  }

  lemma MentionAtLevel(mode: Mode, heads: seq<Head>, events: Events, head: Head)
    requires SameLevel(mode, heads, events) && IsMention(head)
    ensures SameLevel(mode, heads + [head], events + HeadEvents(head))
  {
    hide OwnBindings, OwnKeys, Mentions, MentionedIn, Bound;
    BoundLast(mode, heads, head);
    MentionedLast(heads, head);
    OwnLast(mode, events, Reference(head.text));
  }

  lemma QuietAtLevel(mode: Mode, heads: seq<Head>, events: Events, head: Head)
    requires SameLevel(mode, heads, events) && HeadEvents(head) == []
    ensures SameLevel(mode, heads + [head], events + HeadEvents(head))
  {
    hide OwnBindings, OwnKeys, Mentions, MentionedIn, Bound;
    BoundLast(mode, heads, head);
    MentionedLast(heads, head);
    assert events + [] == events;
  }

  lemma OneEventAtLevel(mode: Mode, heads: seq<Head>, events: Events, head: Head)
    requires SameLevel(mode, heads, events) && !IsMention(head) && |HeadEvents(head)| == 1
    ensures SameLevel(mode, heads + [head], events + HeadEvents(head))
  {
    hide OwnBindings, OwnKeys, Mentions, MentionedIn, Bound;
    BoundLast(mode, heads, head);
    MentionedLast(heads, head);
    var event := HeadEvents(head)[0];
    assert HeadEvents(head) == [event];
    EventAtLevel(mode, heads, events, event);
  }

  lemma LongAtLevel(mode: Mode, heads: seq<Head>, events: Events, head: Head)
    requires SameLevel(mode, heads, events) && |HeadEvents(head)| > 1
    ensures SameLevel(mode, heads + [head], events + HeadEvents(head))
  {
    hide OwnBindings, OwnKeys, Mentions, MentionedIn, Bound;
    BoundLast(mode, heads, head);
    MentionedLast(heads, head);
    var own := HeadEvents(head);
    OwnLast(mode, events, own[0]);
    OwnLast(mode, events + [own[0]], own[1]);
    assert events + [own[0]] + [own[1]] == events + own[..2];
    if |own| == 3 {
      OwnLast(mode, events + own[..2], own[2]);
      assert events + own[..2] + [own[2]] == events + own;
    } else {
      assert own[..2] == own;
    }
  }

  lemma HeadAtLevel(mode: Mode, heads: seq<Head>, events: Events, head: Head)
    requires SameLevel(mode, heads, events)
    ensures SameLevel(mode, heads + [head], events + HeadEvents(head))
  {
    hide SameLevel;
    if IsMention(head) {
      MentionAtLevel(mode, heads, events, head);
    } else if |HeadEvents(head)| == 0 {
      QuietAtLevel(mode, heads, events, head);
    } else if |HeadEvents(head)| == 1 {
      OneEventAtLevel(mode, heads, events, head);
    } else {
      LongAtLevel(mode, heads, events, head);
    }
  }

  lemma {:induction false} HeadsAreLevel(mode: Mode, heads: seq<Head>)
    ensures SameLevel(mode, heads, HeadsEvents(heads))
  {
    if |heads| != 0 {
      var n := |heads| - 1;
      hide SameLevel, HeadEvents;
      HeadsAreLevel(mode, heads[..n]);
      HeadAtLevel(mode, heads[..n], HeadsEvents(heads[..n]), heads[n]);
      assert heads == heads[..n] + [heads[n]];
    }
  }

  /** What was bound before a function, counted in nodes or in events. */
  lemma BoundIsOwn(mode: Mode, heads: seq<Head>, events: Events)
    requires Flat(events) == HeadsEvents(heads)
    ensures Bound(mode, heads) == Prefix(OwnBindings(mode, events), OwnKeys(mode, events))
  {
    hide OwnBindings, OwnKeys, Bound, Flat, HeadsEvents, Mentions, MentionedIn;
    OwnIsFlat(mode, events);
    HeadsAreLevel(mode, heads);
  }

  // The prefixes of the events are those of the tree.

  lemma {:induction false} PlainAddsNoPrefix(mode: Mode, around: Prefix, events: Events, plain: Events)
    requires forall i :: 0 <= i < |plain| ==> !plain[i].Nested?
    ensures Prefixes(mode, around, events + plain) == Prefixes(mode, around, events)
    decreases plain
  {
    hide Prefixes;
    if |plain| == 0 {
      assert events + plain == events;
    } else {
      var n := |plain| - 1;
      PlainAddsNoPrefix(mode, around, events, plain[..n]);
      assert (events + plain)[..|events + plain| - 1] == events + plain[..n];
      PrefixesLast(mode, around, events + plain);
    }
  }

  lemma {:induction false} TreeAddsPrefixes(mode: Mode, around: Prefix, events: Events, before: seq<Head>, t: Tree)
    requires Flat(events) == HeadsEvents(before)
    ensures Prefixes(mode, around, events + TreeEvents(t))
            == Prefixes(mode, around, events) + TreePrefixes(mode, around, before, t)
    decreases t, 1
  {
    hide Prefixes, Flat, HeadsEvents, HeadEvents, PartsEvents, PartsPrefixes, OwnBindings, OwnKeys, Bound;
    var own := HeadEvents(t.head);
    HeadsArePlain(t.head);
    if t.head.FunctionHead? {
      FunctionAddsPrefixes(mode, around, events, before, t);
    } else {
      PlainAddsNoPrefix(mode, around, events, own);
      FlatOfConcat(events, own);
      HeadsLast(before, t.head);
      PartsAddPrefixes(mode, around, events + own, before + [t.head], t.parts);
      assert events + (own + PartsEvents(t.parts)) == events + own + PartsEvents(t.parts);
    }
  }

  lemma {:induction false} FunctionAddsPrefixes(
    mode: Mode, around: Prefix, events: Events, before: seq<Head>, t: Tree)
    requires Flat(events) == HeadsEvents(before) && t.head.FunctionHead?
    ensures Prefixes(mode, around, events + TreeEvents(t))
            == Prefixes(mode, around, events) + TreePrefixes(mode, around, before, t)
    decreases t, 0
  {
    hide Prefixes, Flat, HeadsEvents, HeadEvents, PartsEvents, PartsPrefixes, OwnBindings, OwnKeys, Bound;
    var own, body := HeadEvents(t.head), NodeEvents(t);
    var here := Beyond(around, Bound(mode, before));
    BoundIsOwn(mode, before, events);
    var longer := events + [Nested(body)];
    assert longer[..|longer| - 1] == events;
    PrefixesLast(mode, around, longer);
    HeadsArePlain(t.head);
    NoEvents();
    HeadsLast([], t.head);
    assert [] + [t.head] == [t.head] && [] + own == own;
    PlainAddsNoPrefix(mode, here, [], own);
    NoPrefixes(mode, here);
    PartsAddPrefixes(mode, here, own, [t.head], t.parts);
  }

  lemma NoPrefixes(mode: Mode, around: Prefix)
    ensures Prefixes(mode, around, []) == []
  {
  }

  lemma {:induction false} PartsAddPrefixes(
    mode: Mode, around: Prefix, events: Events, before: seq<Head>, parts: seq<Tree>)
    requires Flat(events) == HeadsEvents(before)
    ensures Prefixes(mode, around, events + PartsEvents(parts))
            == Prefixes(mode, around, events) + PartsPrefixes(mode, around, before, parts)
    decreases parts
  {
    hide Prefixes, Flat, HeadsEvents, TreeEvents, TreePrefixes, Level;
    if |parts| == 0 {
      assert events + PartsEvents(parts) == events;
    } else {
      var first, rest := TreeEvents(parts[0]), PartsEvents(parts[1..]);
      TreeAddsPrefixes(mode, around, events, before, parts[0]);
      LevelIsFlat(parts[0]);
      FlatOfConcat(events, first);
      HeadsOfConcat(before, Level(parts[0]));
      PartsAddPrefixes(mode, around, events + first, before + Level(parts[0]), parts[1..]);
      assert events + (first + rest) == events + first + rest;
    }
  }

  /** The prefixes of all nested functions of a module; before the root block only `_ENV` is bound. */
  function ModulePrefixes(mode: Mode, root: Block): seq<Prefix> {
    TreePrefixes(mode, Prefix(1, SELF_KEY_BYTES), [], BlockTree(root))
  }

  /** The three inherited sums of a module are sums over its functions of what is visible to them. */
  lemma InheritedSumsOfModule(lua55: bool, distinct: bool, root: Block)
    ensures var t := Finish(Fold(Root(lua55, distinct), BlockEvents(root))).totals;
            var prefixes := ModulePrefixes(Mode(lua55, distinct), root);
            && t.inheritedSum == SumBindings(prefixes)
            && t.inheritedSquareSum == SumSquares(prefixes)
            && t.inheritedKeySum == SumKeys(prefixes)
            && t.functions == 1 + |prefixes|
  {
    hide Fold, Prefixes, BlockEvents, BlockTree, TreePrefixes, TreeEvents, SumBindings, SumSquares, SumKeys, ScanWork,
      ScanAllowance;
    var start, mode, around := Root(lua55, distinct), Mode(lua55, distinct), Prefix(1, SELF_KEY_BYTES);
    InheritedSums(start, BlockEvents(root));
    BlockShape(root);
    NoEvents();
    TreeAddsPrefixes(mode, around, [], [], BlockTree(root));
    NoPrefixes(mode, around);
    assert [] + TreeEvents(BlockTree(root)) == BlockEvents(root);
    assert [] + ModulePrefixes(mode, root) == ModulePrefixes(mode, root);
  }
}
