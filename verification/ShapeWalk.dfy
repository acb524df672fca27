/**
 * The counters of the resolver shape walk as a fold over events, and what they amount to.
 *
 * `Frame` holds the per-function counters that `function` saves and restores; `Totals` holds
 * those that only grow. Two frame counters, `probes` and `comparedBytes`, and the record
 * `NameCost` measure the name table of the second Lua 5.5 walk; the walk itself has no such
 * counters, it only prepays for them.
 */
module ShapeWalk {
  import opened Checked
  import opened Ast
  import opened ShapeEvents

  datatype Totals = Totals(
    blocks: nat, functions: nat, declarations: nat, references: nat, labels: nat, gotos: nat, closePaths: nat,
    genericFors: nat, nameBytes: nat, literalBytes: nat, inheritedSum: nat, inheritedSquareSum: nat,
    inheritedKeySum: nat, closeBindingPairs: nat, referenceNameBytes: nat, distinctScanWork: nat,
    keyCompareOps: nat, keyCompareWork: nat, maxDepth: nat)

  datatype Frame = Frame(
    inheritedBindings: nat, inheritedKeyBytes: nat, currentBindings: nat, currentClosePaths: nat,
    currentKeyBytes: nat, currentReferences: nat, currentReferenceNameBytes: nat, currentLabels: nat,
    currentGotos: nat, depth: nat, probes: nat, comparedBytes: nat)

  /** Handles and name bytes held by the tables of all open functions, their peaks, and the scan work done. */
  datatype NameCost = NameCost(
    liveHandles: int, peakHandles: int, liveBytes: int, peakBytes: int, scanWork: nat)

  type NameTable = seq<seq<Byte>>

  /** `names` is absent in the first, non-allocating walk. */
  datatype Shape = Shape(lua55: bool, totals: Totals, frame: Frame, names: Option<NameTable>, cost: NameCost)

  const SELF_KEY_BYTES: nat := 8

  function EmptyFrame(inheritedBindings: nat, inheritedKeyBytes: nat, depth: nat): Frame {
    Frame(inheritedBindings, inheritedKeyBytes, 0, 0, 0, 0, 0, 0, 0, depth, 0, 0)
  }

  /** The state before the root block: the resolver declares `_ENV` first. */
  function Root(lua55: bool, distinct: bool): Shape {
    Shape(
      lua55,
      Totals(0, 1, 0, 0, 0, 0, 0, 0, 0, 0, 0, 0, 0, 0, 0, 0, 0, 0, 1),
      EmptyFrame(0, 0, 1).(currentBindings := 1, currentKeyBytes := SELF_KEY_BYTES),
      if distinct then Some([]) else None,
      NameCost(0, 0, 0, 0, 0))
  }

  // Scanning a name table: entries are compared in order until one is equal.

  function Probes(names: NameTable, name: seq<Byte>): nat {
    if |names| == 0 then 0 else if names[0] == name then 1 else 1 + Probes(names[1..], name)
  }

  /** Only entries of equal length are compared byte by byte. */
  function ComparedBytes(names: NameTable, name: seq<Byte>): nat {
    if |names| == 0 then 0
    else
      (if |names[0]| == |name| then |name| else 0)
      + (if names[0] == name then 0 else ComparedBytes(names[1..], name))
  }

  function TableBytes(names: NameTable): nat {
    if |names| == 0 then 0 else |names[0]| + TableBytes(names[1..])
  }

  function Handles(names: Option<NameTable>): nat {
    if names.Some? then GrownCapacity(|names.value|) else 0
  }

  function HeldBytes(names: Option<NameTable>): nat {
    if names.Some? then TableBytes(names.value) else 0
  }

  function Higher(a: int, b: int): int {
    if a < b then b else a
  }

  /** Adding a name: while a full table grows, its old buffer is still held. */
  function Remember(cost: NameCost, names: NameTable, name: seq<Byte>): NameCost {
    var before := GrownCapacity(|names|);
    var after := PushCapacity(|names|, before);
    var others := cost.liveHandles - before;
    var peak := if |names| < before then others + after else others + before + after;
    cost.(liveHandles := others + after, peakHandles := Higher(cost.peakHandles, peak),
          liveBytes := cost.liveBytes + |name|, peakBytes := Higher(cost.peakBytes, cost.liveBytes + |name|))
  }

  function OnReference(s: Shape, name: Name): Shape {
    var totals := s.totals.(
      references := s.totals.references + 1,
      referenceNameBytes := s.totals.referenceNameBytes + name.Capacity(),
      nameBytes := s.totals.nameBytes + name.Capacity());
    var frame := s.frame.(
      currentReferences := s.frame.currentReferences + 1,
      currentReferenceNameBytes := s.frame.currentReferenceNameBytes + name.Capacity());
    if !s.lua55 then s.(totals := totals, frame := frame)
    else
      match s.names
      case None =>
        s.(totals := totals,
           frame := frame.(currentBindings := frame.currentBindings + 1,
                           currentKeyBytes := frame.currentKeyBytes + name.Capacity()))
      case Some(names) =>
        var scanned := frame.(probes := frame.probes + Probes(names, name.items),
                              comparedBytes := frame.comparedBytes + ComparedBytes(names, name.items));
        if name.items in names then s.(totals := totals, frame := scanned)
        else
          s.(totals := totals,
             frame := scanned.(currentBindings := scanned.currentBindings + 2,
                               currentKeyBytes := scanned.currentKeyBytes + name.Capacity()),
             names := Some(names + [name.items]),
             cost := Remember(s.cost, names, name.items))
  }

  /** The effect of an event that is not a nested function. */
  function Next(s: Shape, event: Event): Shape
    requires !event.Nested?
  {
    var t, f := s.totals, s.frame;
    match event
    case Binding => s.(totals := t.(declarations := t.declarations + 1),
        frame := f.(currentBindings := f.currentBindings + 1))
    case SelfBinding =>
      s.(totals := t.(declarations := t.declarations + 1),
         frame := f.(currentBindings := f.currentBindings + 1, currentKeyBytes := f.currentKeyBytes + SELF_KEY_BYTES))
    case NameBytes(n) => s.(totals := t.(nameBytes := t.nameBytes + n))
    case KeyBytes(n) =>
      s.(totals := t.(nameBytes := t.nameBytes + n), frame := f.(currentKeyBytes := f.currentKeyBytes + n))
    case LiteralBytes(n) => s.(totals := t.(literalBytes := t.literalBytes + n))
    case Reference(name) => OnReference(s, name)
    case ClosePaths(n) =>
      s.(totals := t.(closePaths := t.closePaths + n), frame := f.(currentClosePaths := f.currentClosePaths + n))
    case BlockStart => s.(totals := t.(blocks := t.blocks + 1))
    case LabelStart => s.(totals := t.(labels := t.labels + 1), frame := f.(currentLabels := f.currentLabels + 1))
    case GotoStart => s.(totals := t.(gotos := t.gotos + 1), frame := f.(currentGotos := f.currentGotos + 1))
    case GenericForStart => s.(totals := t.(genericFors := t.genericFors + 1))
  }

  function InheritedCount(f: Frame): nat {
    f.inheritedBindings + f.currentBindings
  }

  function InheritedKeys(f: Frame): nat {
    f.inheritedKeyBytes + f.currentKeyBytes
  }

  /** Opening a nested function: its prefix is everything bound so far in the enclosing functions. */
  function Enter(s: Shape): Shape {
    var t, f := s.totals, s.frame;
    var inherited, keys := InheritedCount(f), InheritedKeys(f);
    s.(totals := t.(
         functions := t.functions + 1,
         inheritedSum := t.inheritedSum + inherited,
         inheritedSquareSum := t.inheritedSquareSum + inherited * inherited,
         inheritedKeySum := t.inheritedKeySum + keys,
         keyCompareOps := t.keyCompareOps + 2 * inherited,
         keyCompareWork := t.keyCompareWork + 2 * inherited * keys,
         maxDepth := Max(t.maxDepth, f.depth + 1)),
       frame := EmptyFrame(inherited, keys, f.depth + 1),
       names := if s.names.Some? then Some([]) else None)
  }

  /** Units per name probe, per compared byte and per reference in `finish_function_key_work`. */
  const PROBE_UNITS: nat := 4
  const BYTE_UNITS: nat := 2
  const REFERENCE_UNITS: nat := 128

  function ScanAllowance(references: nat, bytes: nat): nat {
    PROBE_UNITS * (references * references) + BYTE_UNITS * (references * bytes) + REFERENCE_UNITS * references
  }

  function ScanWork(f: Frame): nat {
    PROBE_UNITS * f.probes + BYTE_UNITS * f.comparedBytes + REFERENCE_UNITS * f.currentReferences
  }

  /** `finish_function_key_work`. */
  function Finish(s: Shape): Shape {
    var t, f := s.totals, s.frame;
    var operations := 4 * f.currentReferences + 4 * f.currentBindings + f.currentGotos + f.currentLabels;
    s.(totals := t.(
         keyCompareOps := t.keyCompareOps + operations,
         keyCompareWork := t.keyCompareWork + operations * InheritedKeys(f),
         distinctScanWork :=
           t.distinctScanWork
           + if s.lua55 then ScanAllowance(f.currentReferences, f.currentReferenceNameBytes) else 0),
       cost := s.cost.(scanWork := s.cost.scanWork + if s.lua55 then ScanWork(f) else 0))
  }

  /** The end of a nested function: its close paths are paired with its bindings, and it is finished. */
  function Complete(s: Shape): Shape {
    var pairs := s.totals.closeBindingPairs + s.frame.currentClosePaths * s.frame.currentBindings;
    Finish(s.(totals := s.totals.(closeBindingPairs := pairs)))
  }

  /** Closing a nested function: what its frame and name table were before it. */
  function Leave(s: Shape, outer: Shape): Shape {
    var done := Complete(s);
    done.(frame := outer.frame, names := outer.names,
          cost := done.cost.(
            liveHandles := done.cost.liveHandles - Handles(s.names),
            liveBytes := done.cost.liveBytes - HeldBytes(s.names)))
  }

  function Fold(s: Shape, events: Events): Shape
    decreases events, 0
  {
    if |events| == 0 then s else Fold(Step(s, events[0]), events[1..])
  }

  function Step(s: Shape, event: Event): Shape
    decreases event, 1
  {
    match event
    case Nested(body) => Leave(Fold(Enter(s), body), s)
    case _ => Next(s, event)
  }

  lemma {:induction false} FoldOfConcat(s: Shape, a: Events, b: Events)
    ensures Fold(s, a + b) == Fold(Fold(s, a), b)
    decreases a
  {
    hide Step;
    if a == [] {
      assert a + b == b;
    } else {
      assert (a + b)[1..] == a[1..] + b;
      FoldOfConcat(Step(s, a[0]), a[1..], b);
    }
  }

  lemma FoldOne(s: Shape, event: Event)
    ensures Fold(s, [event]) == Step(s, event)
  {
    hide Step;
    assert [event][1..] == [];
    assert Fold(Step(s, event), []) == Step(s, event);
  }

  lemma FoldLast(s: Shape, events: Events)
    requires events != []
    ensures Fold(s, events) == Step(Fold(s, events[..|events| - 1]), events[|events| - 1])
  {
    hide Step, Fold;
    var n := |events| - 1;
    assert events == events[..n] + [events[n]];
    FoldOfConcat(s, events[..n], [events[n]]);
    FoldOne(Fold(s, events[..n]), events[n]);
  }

  /** A nested function leaves every per-function counter and the name table as it found them. */
  lemma NestedRestores(s: Shape, body: Events)
    ensures var after := Step(s, Nested(body));
            after.frame == s.frame && after.names == s.names && after.lua55 == s.lua55
    decreases body
  {
    hide Fold;
    FoldKeepsMode(Enter(s), body);
  }

  lemma {:induction false} FoldKeepsMode(s: Shape, events: Events)
    ensures var after := Fold(s, events);
            && after.lua55 == s.lua55 && after.names.Some? == s.names.Some?
            && after.frame.inheritedBindings == s.frame.inheritedBindings
            && after.frame.inheritedKeyBytes == s.frame.inheritedKeyBytes
    decreases events, 0
  {
    if events != [] {
      StepKeepsMode(s, events[0]);
      hide Step;
      FoldKeepsMode(Step(s, events[0]), events[1..]);
    }
  }

  lemma {:induction false} StepKeepsMode(s: Shape, event: Event)
    ensures var after := Step(s, event);
            && after.lua55 == s.lua55 && after.names.Some? == s.names.Some?
            && after.frame.inheritedBindings == s.frame.inheritedBindings
            && after.frame.inheritedKeyBytes == s.frame.inheritedKeyBytes
    decreases event, 1
  {
    match event {
      case Nested(body) =>
        hide Fold;
        FoldKeepsMode(Enter(s), body);
      case _ =>
        hide Fold, Probes, ComparedBytes, Remember;
    }
  }

  // What one function binds itself, read off its events without walking nested functions.

  datatype Mode = Mode(lua55: bool, distinct: bool)

  function ModeOf(s: Shape): Mode {
    Mode(s.lua55, s.names.Some?)
  }

  predicate Mentions(events: Events, name: seq<Byte>) {
    exists i :: 0 <= i < |events| && events[i].Reference? && events[i].name.items == name
  }

  /** Bindings a single event adds to the function it is in, given the events before it. */
  function EventBindings(mode: Mode, before: Events, event: Event): nat {
    match event
    case Binding => 1
    case SelfBinding => 1
    case Reference(name) =>
      if !mode.lua55 then 0 else if !mode.distinct then 1 else if Mentions(before, name.items) then 0 else 2
    case _ => 0
  }

  function EventKeys(mode: Mode, before: Events, event: Event): nat {
    match event
    case SelfBinding => SELF_KEY_BYTES
    case KeyBytes(n) => n
    case Reference(name) =>
      if mode.lua55 && !(mode.distinct && Mentions(before, name.items)) then name.Capacity() else 0
    case _ => 0
  }

  function OwnBindings(mode: Mode, events: Events): nat {
    if |events| == 0 then 0
    else
      var n := |events| - 1;
      OwnBindings(mode, events[..n]) + EventBindings(mode, events[..n], events[n])
  }

  function OwnKeys(mode: Mode, events: Events): nat {
    if |events| == 0 then 0
    else
      var n := |events| - 1;
      OwnKeys(mode, events[..n]) + EventKeys(mode, events[..n], events[n])
  }

  /** The visible prefix of a nested function: enclosing bindings and key bytes counted before it. */
  datatype Prefix = Prefix(bindings: nat, keys: nat)

  /** One prefix per nested function at any depth, in source order. */
  function Prefixes(mode: Mode, around: Prefix, events: Events): seq<Prefix>
    decreases events
  {
    if |events| == 0 then []
    else
      var n := |events| - 1;
      Prefixes(mode, around, events[..n]) + PrefixesAt(mode, around, events[..n], events[n])
  }

  function PrefixesAt(mode: Mode, around: Prefix, before: Events, event: Event): seq<Prefix>
    decreases event
  {
    match event
    case Nested(body) =>
      var here := Prefix(around.bindings + OwnBindings(mode, before), around.keys + OwnKeys(mode, before));
      [here] + Prefixes(mode, here, body)
    case _ => []
  }

  function SumBindings(prefixes: seq<Prefix>): nat {
    if |prefixes| == 0 then 0 else prefixes[0].bindings + SumBindings(prefixes[1..])
  }

  function SumSquares(prefixes: seq<Prefix>): nat {
    if |prefixes| == 0 then 0 else prefixes[0].bindings * prefixes[0].bindings + SumSquares(prefixes[1..])
  }

  function SumKeys(prefixes: seq<Prefix>): nat {
    if |prefixes| == 0 then 0 else prefixes[0].keys + SumKeys(prefixes[1..])
  }

  lemma {:induction false} SumsOfConcat(a: seq<Prefix>, b: seq<Prefix>)
    ensures SumBindings(a + b) == SumBindings(a) + SumBindings(b)
    ensures SumSquares(a + b) == SumSquares(a) + SumSquares(b)
    ensures SumKeys(a + b) == SumKeys(a) + SumKeys(b)
  {
    if a == [] {
      assert a + b == b;
    } else {
      assert (a + b)[1..] == a[1..] + b;
      SumsOfConcat(a[1..], b);
    }
  }

  /** A function has just been opened: nothing bound, no name remembered. */
  predicate JustOpened(s: Shape) {
    s.names.None? || s.names.value == []
  }

  /** The frame and the name table are those of `start` plus what `events` bind themselves. */
  ghost predicate AtLevel(start: Shape, events: Events, s: Shape) {
    && ModeOf(s) == ModeOf(start)
    && s.frame.inheritedBindings == start.frame.inheritedBindings
    && s.frame.inheritedKeyBytes == start.frame.inheritedKeyBytes
    && s.frame.currentBindings == start.frame.currentBindings + OwnBindings(ModeOf(start), events)
    && s.frame.currentKeyBytes == start.frame.currentKeyBytes + OwnKeys(ModeOf(start), events)
    && (s.lua55 && s.names.Some? ==> forall name :: name in s.names.value <==> Mentions(events, name))
  }

  lemma MentionsLast(events: Events)
    requires events != []
    ensures forall name ::
              Mentions(events, name)
              <==> Mentions(events[..|events| - 1], name)
                   || (events[|events| - 1].Reference? && events[|events| - 1].name.items == name)
  {
    var n := |events| - 1;
    forall name
      ensures Mentions(events, name)
              <==> Mentions(events[..n], name) || (events[n].Reference? && events[n].name.items == name)
    {
      if Mentions(events[..n], name) {
        var i :| 0 <= i < n && events[..n][i].Reference? && events[..n][i].name.items == name;
        assert events[i].Reference? && events[i].name.items == name;
      }
      if Mentions(events, name) {
        var i :| 0 <= i < |events| && events[i].Reference? && events[i].name.items == name;
        if i < n {
          assert events[..n][i].Reference? && events[..n][i].name.items == name;
        }
      }
    }
  }

  lemma OwnLast(mode: Mode, before: Events, event: Event)
    ensures OwnBindings(mode, before + [event]) == OwnBindings(mode, before) + EventBindings(mode, before, event)
    ensures OwnKeys(mode, before + [event]) == OwnKeys(mode, before) + EventKeys(mode, before, event)
    ensures forall name ::
              Mentions(before + [event], name)
              <==> Mentions(before, name) || (event.Reference? && event.name.items == name)
  {
    hide Mentions, EventBindings, EventKeys;
    var events := before + [event];
    assert events[..|events| - 1] == before;
    MentionsLast(events);
  }

  lemma NextKeepsLevel(start: Shape, before: Events, s: Shape, event: Event)
    requires AtLevel(start, before, s) && !event.Nested?
    ensures AtLevel(start, before + [event], Next(s, event))
  {
    hide OwnBindings, OwnKeys, Mentions;
    OwnLast(ModeOf(start), before, event);
    if event.Reference? {
      hide OwnBindings, OwnKeys, Mentions, Probes, ComparedBytes, Remember;
    } else {
      hide OwnBindings, OwnKeys, Mentions, OnReference;
    }
  }

  lemma {:induction false} FoldIsAtLevel(start: Shape, events: Events)
    requires JustOpened(start)
    ensures AtLevel(start, events, Fold(start, events))
    decreases events
  {
    if events != [] {
      var n := |events| - 1;
      var before, event := events[..n], events[n];
      var s := Fold(start, before);
      FoldIsAtLevel(start, before);
      FoldLast(start, events);
      assert events == before + [event];
      if event.Nested? {
        hide Fold, Mentions, Leave;
        NestedRestores(s, event.body);
        MentionsLast(events);
      } else {
        hide Fold, AtLevel, Next;
        NextKeepsLevel(start, before, s, event);
      }
    }
  }

  // The inherited sums are the sums over all nested functions of their visible prefixes.

  function Around(f: Frame): Prefix {
    Prefix(InheritedCount(f), InheritedKeys(f))
  }

  ghost predicate SumsGrew(before: Totals, after: Totals, prefixes: seq<Prefix>) {
    && after.inheritedSum == before.inheritedSum + SumBindings(prefixes)
    && after.inheritedSquareSum == before.inheritedSquareSum + SumSquares(prefixes)
    && after.inheritedKeySum == before.inheritedKeySum + SumKeys(prefixes)
    && after.functions == before.functions + |prefixes|
  }

  lemma NextKeepsSums(s: Shape, event: Event)
    requires !event.Nested?
    ensures SumsGrew(s.totals, Next(s, event).totals, [])
  {
    hide Probes, ComparedBytes, Remember;
  }

  lemma SumsChain(a: Totals, b: Totals, c: Totals, p: seq<Prefix>, q: seq<Prefix>)
    requires SumsGrew(a, b, p) && SumsGrew(b, c, q)
    ensures SumsGrew(a, c, p + q)
  {
    hide SumBindings, SumSquares, SumKeys;
    SumsOfConcat(p, q);
  }

  lemma EnterAddsPrefix(s: Shape)
    ensures SumsGrew(s.totals, Enter(s).totals, [Around(s.frame)])
    ensures JustOpened(Enter(s)) && ModeOf(Enter(s)) == ModeOf(s) && Around(Enter(s).frame) == Around(s.frame)
  {
    assert [Around(s.frame)][1..] == [];
  }

  lemma LeaveKeepsSums(s: Shape, outer: Shape)
    ensures SumsGrew(s.totals, Leave(s, outer).totals, [])
  {
  }

  lemma {:induction false} InheritedSums(start: Shape, events: Events)
    requires JustOpened(start)
    ensures SumsGrew(start.totals, Fold(start, events).totals, Prefixes(ModeOf(start), Around(start.frame), events))
    decreases events, 0
  {
    if events != [] {
      var n := |events| - 1;
      var before, event := events[..n], events[n];
      var mode, around := ModeOf(start), Around(start.frame);
      var s := Fold(start, before);
      InheritedSums(start, before);
      FoldLast(start, events);
      FoldIsAtLevel(start, before);
      hide Fold, SumsGrew, OwnBindings, OwnKeys, Mentions, Prefixes;
      StepAddsPrefixes(start, before, s, event);
      SumsChain(start.totals, s.totals, Step(s, event).totals,
                Prefixes(mode, around, before), PrefixesAt(mode, around, before, event));
      PrefixesLast(mode, around, events);
    } else {
      assert SumsGrew(start.totals, start.totals, []);
    }
  }

  lemma {:induction false} PrefixesLast(mode: Mode, around: Prefix, events: Events)
    requires events != []
    ensures Prefixes(mode, around, events)
            == Prefixes(mode, around, events[..|events| - 1])
               + PrefixesAt(mode, around, events[..|events| - 1], events[|events| - 1])
  {
    hide PrefixesAt;
  }

  lemma {:induction false} StepAddsPrefixes(start: Shape, before: Events, s: Shape, event: Event)
    requires JustOpened(start) && AtLevel(start, before, s)
    ensures SumsGrew(s.totals, Step(s, event).totals, PrefixesAt(ModeOf(start), Around(start.frame), before, event))
    decreases event, 1
  {
    match event {
      case Nested(body) =>
        hide Fold, SumsGrew, OwnBindings, OwnKeys, Mentions, Prefixes, Leave, Enter;
        var mode := ModeOf(start);
        var here := Around(s.frame);
        var entered := Enter(s);
        EnterAddsPrefix(s);
        InheritedSums(entered, body);
        var inner := Fold(entered, body);
        var below := Prefixes(mode, here, body);
        SumsChain(s.totals, entered.totals, inner.totals, [here], below);
        LeaveKeepsSums(inner, s);
        SumsChain(s.totals, inner.totals, Leave(inner, s).totals, [here] + below, []);
        assert [here] + below + [] == [here] + below;
      case _ =>
        hide Fold, SumsGrew, Next;
        NextKeepsSums(s, event);
    }
  }

  // Changing the body of one nested function leaves the prefixes of all other functions alone.

  lemma {:induction false} OwnIgnoresBodies(mode: Mode, before: Events, body: Events, other: Events, after: Events)
    ensures OwnBindings(mode, before + [Nested(body)] + after) == OwnBindings(mode, before + [Nested(other)] + after)
    ensures OwnKeys(mode, before + [Nested(body)] + after) == OwnKeys(mode, before + [Nested(other)] + after)
    ensures forall name ::
              Mentions(before + [Nested(body)] + after, name) <==> Mentions(before + [Nested(other)] + after, name)
    decreases after
  {
    hide OwnBindings, OwnKeys, Mentions;
    if after == [] {
      assert before + [Nested(body)] + after == before + [Nested(body)];
      assert before + [Nested(other)] + after == before + [Nested(other)];
      OwnLast(mode, before, Nested(body));
      OwnLast(mode, before, Nested(other));
    } else {
      var n := |after| - 1;
      OwnIgnoresBodies(mode, before, body, other, after[..n]);
      assert before + [Nested(body)] + after == before + [Nested(body)] + after[..n] + [after[n]];
      assert before + [Nested(other)] + after == before + [Nested(other)] + after[..n] + [after[n]];
      OwnLast(mode, before + [Nested(body)] + after[..n], after[n]);
      OwnLast(mode, before + [Nested(other)] + after[..n], after[n]);
    }
  }

  /** The prefixes of the functions in `after`, when `before` and some nested function precede them. */
  function PrefixesAfter(mode: Mode, around: Prefix, before: Events, body: Events, after: Events): seq<Prefix> {
    if |after| == 0 then []
    else
      var n := |after| - 1;
      PrefixesAfter(mode, around, before, body, after[..n])
      + PrefixesAt(mode, around, before + [Nested(body)] + after[..n], after[n])
  }

  lemma {:induction false} PrefixesSplit(mode: Mode, around: Prefix, before: Events, body: Events, after: Events)
    ensures Prefixes(mode, around, before + [Nested(body)] + after)
            == Prefixes(mode, around, before) + PrefixesAt(mode, around, before, Nested(body))
               + PrefixesAfter(mode, around, before, body, after)
    decreases after
  {
    hide Prefixes, PrefixesAt;
    var events := before + [Nested(body)] + after;
    PrefixesLast(mode, around, events);
    if after == [] {
      assert events == before + [Nested(body)];
      assert events[..|events| - 1] == before;
    } else {
      var n := |after| - 1;
      assert events[..|events| - 1] == before + [Nested(body)] + after[..n];
      PrefixesSplit(mode, around, before, body, after[..n]);
    }
  }

  /**
   * Replacing the body of one nested function replaces only the prefixes of the functions inside
   * that body: those before it, its own, and those after it stay as they are.
   */
  lemma {:induction false} SiblingsAreIndependent(
    mode: Mode, around: Prefix, before: Events, body: Events, other: Events, after: Events)
    ensures PrefixesAfter(mode, around, before, body, after) == PrefixesAfter(mode, around, before, other, after)
    ensures PrefixesAt(mode, around, before, Nested(body))[0] == PrefixesAt(mode, around, before, Nested(other))[0]
    decreases after
  {
    if after != [] {
      var n := |after| - 1;
      SiblingsAreIndependent(mode, around, before, body, other, after[..n]);
      OwnIgnoresBodies(mode, before, body, other, after[..n]);
      hide OwnBindings, OwnKeys, Prefixes, Mentions;
      assert PrefixesAt(mode, around, before + [Nested(body)] + after[..n], after[n])
             == PrefixesAt(mode, around, before + [Nested(other)] + after[..n], after[n]);
    }
  }

  // The same at any depth: a module with a place for the body of one of its functions.

  datatype Context = Hole(before: Events, after: Events) | Inside(before: Events, inner: Context, after: Events)

  /** The events of the module when that body is `body`. */
  function Plug(context: Context, body: Events): Events {
    match context
    case Hole(before, after) => before + [Nested(body)] + after
    case Inside(before, inner, after) => before + [Nested(Plug(inner, body))] + after
  }

  function PrefixHere(mode: Mode, around: Prefix, before: Events): Prefix {
    Prefix(around.bindings + OwnBindings(mode, before), around.keys + OwnKeys(mode, before))
  }

  /** The prefix of the function in the hole; the prefixes before it with its own; those after it. */
  function HolePrefix(mode: Mode, around: Prefix, context: Context): Prefix
    decreases context
  {
    var here := PrefixHere(mode, around, context.before);
    match context
    case Hole(_, _) => here
    case Inside(_, inner, _) => HolePrefix(mode, here, inner)
  }

  function PrefixesBeforeHole(mode: Mode, around: Prefix, context: Context): seq<Prefix>
    decreases context
  {
    var here := PrefixHere(mode, around, context.before);
    Prefixes(mode, around, context.before) + [here]
    + match context
      case Hole(_, _) => []
      case Inside(_, inner, _) => PrefixesBeforeHole(mode, here, inner)
  }

  function PrefixesAfterHole(mode: Mode, around: Prefix, context: Context): seq<Prefix>
    decreases context
  {
    (match context
     case Hole(_, _) => []
     case Inside(before, inner, _) => PrefixesAfterHole(mode, PrefixHere(mode, around, before), inner))
    + PrefixesAfter(mode, around, context.before, [], context.after)
  }

  /**
   * Whatever the body of a function at any depth is, the prefixes outside it are the same: those
   * of the functions before it, around it and after it do not mention the body.
   */
  lemma {:induction false} OutsideIsIndependent(mode: Mode, around: Prefix, context: Context, body: Events)
    ensures Prefixes(mode, around, Plug(context, body))
            == PrefixesBeforeHole(mode, around, context)
               + Prefixes(mode, HolePrefix(mode, around, context), body)
               + PrefixesAfterHole(mode, around, context)
    decreases context
  {
    hide Prefixes, PrefixesAfter, OwnBindings, OwnKeys;
    var before, after := context.before, context.after;
    var here := PrefixHere(mode, around, before);
    var inside := if context.Hole? then body else Plug(context.inner, body);
    PrefixesSplit(mode, around, before, inside, after);
    SiblingsAreIndependent(mode, around, before, inside, [], after);
    if context.Inside? {
      OutsideIsIndependent(mode, here, context.inner, body);
    }
    Regroup(Prefixes(mode, around, before), here,
            if context.Hole? then [] else PrefixesBeforeHole(mode, here, context.inner),
            Prefixes(mode, HolePrefix(mode, around, context), body),
            if context.Hole? then [] else PrefixesAfterHole(mode, here, context.inner),
            PrefixesAfter(mode, around, before, [], after));
  }

  lemma Regroup(
    a: seq<Prefix>, here: Prefix, b: seq<Prefix>, c: seq<Prefix>, d: seq<Prefix>, e: seq<Prefix>)
    ensures a + ([here] + (b + c + d)) + e == a + [here] + b + c + (d + e)
    ensures [] + c + [] == c
  {
  }

  // The name table of the second Lua 5.5 walk stays within what the first walk prepaid.

  lemma {:induction false} ScanWithinTable(names: NameTable, name: seq<Byte>)
    ensures Probes(names, name) <= |names|
    ensures ComparedBytes(names, name) <= TableBytes(names)
  {
    if names != [] {
      ScanWithinTable(names[1..], name);
    }
  }

  lemma {:induction false} TableBytesOfPush(names: NameTable, name: seq<Byte>)
    ensures TableBytes(names + [name]) == TableBytes(names) + |name|
  {
    if names == [] {
      assert names + [name] == [name];
      assert [name][1..] == [];
    } else {
      assert (names + [name])[1..] == names[1..] + [name];
      TableBytesOfPush(names[1..], name);
    }
  }

  /** Handles and bytes held by the functions around the current one. */
  function OuterHandles(s: Shape): int {
    s.cost.liveHandles - Handles(s.names)
  }

  function OuterBytes(s: Shape): int {
    s.cost.liveBytes - HeldBytes(s.names)
  }

  ghost predicate Onward(s: Shape, after: Shape) {
    && OuterHandles(after) == OuterHandles(s)
    && OuterBytes(after) == OuterBytes(s)
    && s.totals.references <= after.totals.references
    && s.totals.referenceNameBytes <= after.totals.referenceNameBytes
  }

  lemma NextIsOnward(s: Shape, event: Event)
    requires !event.Nested?
    ensures Onward(s, Next(s, event))
  {
    hide Probes, ComparedBytes, TableBytes, GrownCapacity, PushCapacity;
    if event.Reference? && s.names.Some? {
      TableBytesOfPush(s.names.value, event.name.items);
      GrownByPush(|s.names.value|);
    }
  }

  lemma GrownByPush(n: nat)
    ensures GrownCapacity(n + 1) == PushCapacity(n, GrownCapacity(n))
  {
  }

  /** Whatever a function does, what the functions around it hold is unchanged, and totals only grow. */
  lemma {:induction false} FoldIsOnward(s: Shape, events: Events)
    ensures Onward(s, Fold(s, events))
    decreases events, 0
  {
    if events != [] {
      StepIsOnward(s, events[0]);
      hide Step, OuterHandles, OuterBytes;
      FoldIsOnward(Step(s, events[0]), events[1..]);
    }
  }

  lemma {:induction false} StepIsOnward(s: Shape, event: Event)
    ensures Onward(s, Step(s, event))
    decreases event, 1
  {
    match event {
      case Nested(body) =>
        hide Fold;
        FoldIsOnward(Enter(s), body);
        assert TableBytes([]) == 0 && GrownCapacity(0) == 0;
      case _ =>
        hide Fold, Next, Onward;
        NextIsOnward(s, event);
    }
  }

  ghost predicate Prepaid(s: Shape)
    requires s.names.Some?
  {
    var t, f, c, names := s.totals, s.frame, s.cost, s.names.value;
    var references, bytes := f.currentReferences, f.currentReferenceNameBytes;
    && references <= t.references && bytes <= t.referenceNameBytes
    && |names| <= references && TableBytes(names) <= bytes
    && f.probes <= references * references
    && f.comparedBytes <= references * bytes
    && OuterHandles(s) <= 4 * (t.references - references)
    && c.peakHandles <= 4 * t.references
    && OuterBytes(s) <= t.referenceNameBytes - bytes
    && c.peakBytes <= t.referenceNameBytes
    && c.scanWork <= t.distinctScanWork
  }

  lemma ScanProducts(references: nat, bytes: nat, capacity: nat)
    ensures references * references + references <= (references + 1) * (references + 1)
    ensures references * bytes + bytes <= (references + 1) * (bytes + capacity)
  {
    assert (references + 1) * (bytes + capacity)
           == references * bytes + bytes + references * capacity + capacity;
    assert 0 <= references * capacity;
  }

  lemma ReferenceKeepsPrepaid(s: Shape, name: Name)
    requires s.lua55 && s.names.Some? && Prepaid(s)
    ensures Prepaid(OnReference(s, name))
  {
    var names, items := s.names.value, name.items;
    var references, bytes := s.frame.currentReferences, s.frame.currentReferenceNameBytes;
    ScanWithinTable(names, items);
    TableBytesOfPush(names, items);
    GrownByPush(|names|);
    GrownCapacityBound(|names|);
    ScanProducts(references, bytes, name.Capacity());
    hide Probes, ComparedBytes, TableBytes, GrownCapacity;
    var after := OnReference(s, name);
    assert after.frame.probes <= after.frame.currentReferences * after.frame.currentReferences;
    assert after.frame.comparedBytes <= after.frame.currentReferences * after.frame.currentReferenceNameBytes;
  }

  lemma NextKeepsPrepaid(s: Shape, event: Event)
    requires !event.Nested? && s.lua55 && s.names.Some? && Prepaid(s)
    ensures Prepaid(Next(s, event))
  {
    hide Probes, ComparedBytes, TableBytes, GrownCapacity, OnReference;
    if event.Reference? {
      ReferenceKeepsPrepaid(s, event.name);
    }
  }

  lemma EnterIsPrepaid(s: Shape)
    requires s.lua55 && s.names.Some? && Prepaid(s)
    ensures Prepaid(Enter(s))
  {
    GrownCapacityBound(|s.names.value|);
    assert TableBytes([]) == 0 && GrownCapacity(0) == 0;
    hide TableBytes, GrownCapacity;
  }

  lemma AllowanceCoversWork(f: Frame)
    requires f.probes <= f.currentReferences * f.currentReferences
    requires f.comparedBytes <= f.currentReferences * f.currentReferenceNameBytes
    ensures ScanWork(f) <= ScanAllowance(f.currentReferences, f.currentReferenceNameBytes)
  {
  }

  lemma LeaveKeepsPrepaid(inner: Shape, outer: Shape)
    requires inner.lua55 && inner.names.Some? && Prepaid(inner)
    requires outer.lua55 && outer.names.Some? && Prepaid(outer)
    requires Onward(Enter(outer), inner)
    ensures Prepaid(Leave(inner, outer))
  {
    AllowanceCoversWork(inner.frame);
    assert TableBytes([]) == 0 && GrownCapacity(0) == 0;
    hide TableBytes, GrownCapacity, ScanWork, ScanAllowance;
  }

  lemma {:induction false} FoldKeepsPrepaid(s: Shape, events: Events)
    requires s.lua55 && s.names.Some? && Prepaid(s)
    ensures var after := Fold(s, events); after.lua55 && after.names.Some? && Prepaid(after)
    decreases events, 0
  {
    if events != [] {
      StepKeepsPrepaid(s, events[0]);
      hide Step, Prepaid;
      FoldKeepsPrepaid(Step(s, events[0]), events[1..]);
    }
  }

  lemma {:induction false} StepKeepsPrepaid(s: Shape, event: Event)
    requires s.lua55 && s.names.Some? && Prepaid(s)
    ensures var after := Step(s, event); after.lua55 && after.names.Some? && Prepaid(after)
    decreases event, 1
  {
    StepKeepsMode(s, event);
    match event {
      case Nested(body) =>
        EnterIsPrepaid(s);
        FoldKeepsPrepaid(Enter(s), body);
        FoldIsOnward(Enter(s), body);
        hide Fold, Prepaid, Onward, Leave;
        LeaveKeepsPrepaid(Fold(Enter(s), body), s);
      case _ =>
        hide Fold, Next, Prepaid;
        NextKeepsPrepaid(s, event);
    }
  }

  // Both Lua 5.5 walks count the same references, so they prepay the same work.

  ghost predicate SameReferences(a: Shape, b: Shape) {
    && a.lua55 == b.lua55
    && a.totals.references == b.totals.references
    && a.totals.referenceNameBytes == b.totals.referenceNameBytes
    && a.totals.distinctScanWork == b.totals.distinctScanWork
    && a.frame.currentReferences == b.frame.currentReferences
    && a.frame.currentReferenceNameBytes == b.frame.currentReferenceNameBytes
  }

  lemma {:induction false} WalksAgree(a: Shape, b: Shape, events: Events)
    requires SameReferences(a, b)
    ensures SameReferences(Fold(a, events), Fold(b, events))
    decreases events, 0
  {
    if events != [] {
      StepsAgree(a, b, events[0]);
      hide Step, SameReferences;
      WalksAgree(Step(a, events[0]), Step(b, events[0]), events[1..]);
    }
  }

  lemma {:induction false} StepsAgree(a: Shape, b: Shape, event: Event)
    requires SameReferences(a, b)
    ensures SameReferences(Step(a, event), Step(b, event))
    decreases event, 1
  {
    match event {
      case Nested(body) =>
        hide Fold, ScanWork, ScanAllowance, Handles, HeldBytes;
        WalksAgree(Enter(a), Enter(b), body);
      case _ =>
        hide Fold, Probes, ComparedBytes, Remember;
    }
  }

  /**
   * The first walk of a Lua 5.5 module fixes the prepayment: the second walk scans no more than
   * the work it charged, and all its open name tables together, a growing one counted with both
   * of its buffers, hold at most four handles per reference and the bytes of the reference names.
   */
  lemma NameWalkIsPrepaid(events: Events)
    ensures var first := Finish(Fold(Root(true, false), events));
            var second := Finish(Fold(Root(true, true), events));
            && second.cost.scanWork <= first.totals.distinctScanWork
            && second.cost.peakHandles <= 4 * first.totals.references
            && second.cost.peakBytes <= first.totals.referenceNameBytes
  {
    hide Fold, ScanWork, ScanAllowance, Root, TableBytes, GrownCapacity;
    var first, second := Root(true, false), Root(true, true);
    RootIsPrepaid();
    FoldKeepsPrepaid(second, events);
    WalksAgree(first, second, events);
    AllowanceCoversWork(Fold(second, events).frame);
  }

  lemma RootIsPrepaid()
    ensures var root := Root(true, true); root.lua55 && root.names.Some? && Prepaid(root)
    ensures SameReferences(Root(true, false), Root(true, true))
  {
    EmptyTable();
    hide TableBytes, GrownCapacity;
  }

  lemma EmptyTable()
    ensures TableBytes([]) == 0 && GrownCapacity(0) == 0
  {
  }
}
