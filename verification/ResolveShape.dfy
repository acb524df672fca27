/**
 * The shape walk over the syntax tree, with checked counters, proved to be the fold of module
 * `ShapeWalk` over the tree's events.
 */
module ResolveShape {
  import opened Checked
  import opened Ast
  import opened AstTree
  import opened ShapeEvents
  import opened ShapeWalk
  import ShapeCounts
  import ShapePrefixes
  import ShapeSums

  predicate TotalsFit(t: Totals) {
    && t.blocks <= USIZE_MAX && t.functions <= USIZE_MAX && t.declarations <= USIZE_MAX
    && t.references <= USIZE_MAX && t.labels <= USIZE_MAX && t.gotos <= USIZE_MAX
    && t.closePaths <= USIZE_MAX && t.genericFors <= USIZE_MAX && t.nameBytes <= USIZE_MAX
    && t.literalBytes <= USIZE_MAX && t.inheritedSum <= USIZE_MAX && t.inheritedSquareSum <= USIZE_MAX
    && t.inheritedKeySum <= USIZE_MAX && t.closeBindingPairs <= USIZE_MAX && t.referenceNameBytes <= USIZE_MAX
    && t.distinctScanWork <= USIZE_MAX && t.keyCompareOps <= USIZE_MAX && t.keyCompareWork <= USIZE_MAX
    && t.maxDepth <= USIZE_MAX
  }

  predicate FrameFits(f: Frame) {
    && f.inheritedBindings <= USIZE_MAX && f.inheritedKeyBytes <= USIZE_MAX && f.currentBindings <= USIZE_MAX
    && f.currentClosePaths <= USIZE_MAX && f.currentKeyBytes <= USIZE_MAX && f.currentReferences <= USIZE_MAX
    && f.currentReferenceNameBytes <= USIZE_MAX && f.currentLabels <= USIZE_MAX && f.currentGotos <= USIZE_MAX
    && f.depth <= USIZE_MAX
  }

  /** Every counter of the walk is a `usize`. */
  predicate InRange(s: Shape) {
    TotalsFit(s.totals) && FrameFits(s.frame)
  }

  /** Closing a function adds up its key bytes even when it then multiplies them by nothing. */
  predicate CanLeave(s: Shape, outer: Shape) {
    InheritedKeys(s.frame) <= USIZE_MAX && InRange(Leave(s, outer))
  }

  /** No counter overflows along the walk. */
  predicate Clear(s: Shape, events: Events)
    decreases events, 0
  {
    |events| == 0 || (StepClear(s, events[0]) && Clear(Step(s, events[0]), events[1..]))
  }

  predicate StepClear(s: Shape, event: Event)
    decreases event, 1
  {
    match event
    case Nested(body) =>
      InRange(Enter(s)) && Clear(Enter(s), body) && CanLeave(Fold(Enter(s), body), s)
    case _ => InRange(Next(s, event))
  }

  lemma {:induction false} ClearOfConcat(s: Shape, a: Events, b: Events)
    ensures Clear(s, a + b) <==> Clear(s, a) && Clear(Fold(s, a), b)
    decreases a
  {
    hide Step, StepClear;
    if a == [] {
      assert a + b == b;
    } else {
      assert (a + b)[1..] == a[1..] + b;
      ClearOfConcat(Step(s, a[0]), a[1..], b);
    }
  }

  lemma WalksChain()
    ensures forall s: Shape, a: Events, b: Events {:trigger Fold(s, a + b)} :: Fold(s, a + b) == Fold(Fold(s, a), b)
    ensures forall s: Shape, a: Events, b: Events {:trigger Clear(s, a + b)} ::
              Clear(s, a + b) <==> Clear(s, a) && Clear(Fold(s, a), b)
    ensures forall s: Shape :: Fold(s, []) == s && Clear(s, [])
  {
    hide Step, StepClear;
    forall s: Shape, a: Events, b: Events ensures Fold(s, a + b) == Fold(Fold(s, a), b) {
      FoldOfConcat(s, a, b);
    }
    forall s: Shape, a: Events, b: Events ensures Clear(s, a + b) <==> Clear(s, a) && Clear(Fold(s, a), b) {
      ClearOfConcat(s, a, b);
    }
  }

  lemma OneEvent(s: Shape, event: Event)
    ensures Fold(s, [event]) == Step(s, event)
    ensures Clear(s, [event]) <==> StepClear(s, event)
  {
    hide Step, StepClear;
    FoldOne(s, event);
    assert [event][1..] == [];
    assert Clear(Step(s, event), []);
  }

  // The walk counter by counter: intermediate results are no larger than what they go into.

  function TotalsMentioned(t: Totals, capacity: nat): Totals {
    t.(references := t.references + 1, referenceNameBytes := t.referenceNameBytes + capacity,
       nameBytes := t.nameBytes + capacity)
  }

  function FrameMentioned(f: Frame, capacity: nat): Frame {
    f.(currentReferences := f.currentReferences + 1,
       currentReferenceNameBytes := f.currentReferenceNameBytes + capacity)
  }

  function Mentioned(s: Shape, capacity: nat): Shape {
    s.(totals := TotalsMentioned(s.totals, capacity), frame := FrameMentioned(s.frame, capacity))
  }

  lemma MentionedFits(s: Shape, capacity: nat)
    ensures InRange(Mentioned(s, capacity)) <==>
              TotalsFit(TotalsMentioned(s.totals, capacity)) && FrameFits(FrameMentioned(s.frame, capacity))
  {
  }

  function WithImplicit(s: Shape, bindings: nat, capacity: nat): Shape {
    s.(frame := s.frame.(
         currentBindings := s.frame.currentBindings + bindings,
         currentKeyBytes := s.frame.currentKeyBytes + capacity))
  }

  /** The name table and what looking at it costs; a new name is entered. */
  function Looked(s: Shape, name: seq<Byte>): Shape
    requires s.names.Some?
  {
    var names := s.names.value;
    var scanned := s.frame.(
      probes := s.frame.probes + Probes(names, name),
      comparedBytes := s.frame.comparedBytes + ComparedBytes(names, name));
    if name in names then s.(frame := scanned)
    else s.(frame := scanned, names := Some(names + [name]), cost := Remember(s.cost, names, name))
  }

  lemma ReferenceByParts(s: Shape, name: Name)
    ensures var m := Mentioned(s, name.Capacity());
            && m.lua55 == s.lua55 && m.names == s.names
            && (s.names.Some? ==>
                  Looked(m, name.items).names.Some? && InRange(Looked(m, name.items)) == InRange(m))
            && OnReference(s, name)
               == (if !s.lua55 then m
                   else if s.names.None? then WithImplicit(m, 1, name.Capacity())
                   else if name.items in s.names.value then Looked(m, name.items)
                   else WithImplicit(Looked(m, name.items), 2, name.Capacity()))
            && (InRange(OnReference(s, name)) ==> InRange(m))
  {
    hide Probes, ComparedBytes, Remember;
  }

  /** The ten counters that a nested function saves. */
  function Saved(f: Frame): (nat, nat, nat, nat, nat, nat, nat, nat, nat, nat) {
    (f.inheritedBindings, f.inheritedKeyBytes, f.currentBindings, f.currentClosePaths, f.currentKeyBytes,
     f.currentReferences, f.currentReferenceNameBytes, f.currentLabels, f.currentGotos, f.depth)
  }

  /** What opening a function adds to the totals. */
  function PrefixTotals(t: Totals, inherited: nat, keys: nat): Totals {
    t.(functions := t.functions + 1,
       inheritedSum := t.inheritedSum + inherited,
       inheritedSquareSum := t.inheritedSquareSum + inherited * inherited,
       inheritedKeySum := t.inheritedKeySum + keys,
       keyCompareOps := t.keyCompareOps + 2 * inherited,
       keyCompareWork := t.keyCompareWork + 2 * inherited * keys)
  }

  lemma PrefixTotalsFit(t: Totals, inherited: nat, keys: nat)
    requires TotalsFit(t)
    ensures var p := PrefixTotals(t, inherited, keys);
            TotalsFit(p) <==>
              && p.functions <= USIZE_MAX && p.inheritedSum <= USIZE_MAX && p.inheritedSquareSum <= USIZE_MAX
              && p.inheritedKeySum <= USIZE_MAX && p.keyCompareOps <= USIZE_MAX && p.keyCompareWork <= USIZE_MAX
  {
  }

  lemma EnterByParts(s: Shape)
    requires InRange(s)
    ensures TotalsFit(s.totals)
    ensures var t, f := s.totals, s.frame;
            var inherited, keys := InheritedCount(f), InheritedKeys(f);
            var prefixed := PrefixTotals(t, inherited, keys);
            && Enter(s)
               == Shape(s.lua55, prefixed.(maxDepth := Max(prefixed.maxDepth, f.depth + 1)),
                        EmptyFrame(inherited, keys, f.depth + 1), if s.names.Some? then Some([]) else None, s.cost)
            && (InRange(Enter(s)) <==>
                  && inherited <= USIZE_MAX && keys <= USIZE_MAX && TotalsFit(prefixed) && f.depth + 1 <= USIZE_MAX)
  {
  }

  predicate FinishFits(s: Shape) {
    InheritedKeys(s.frame) <= USIZE_MAX && TotalsFit(Finish(s).totals)
  }

  lemma FinishFitsParts(s: Shape)
    requires InRange(s)
    ensures var t := Finish(s).totals;
            FinishFits(s) <==>
              && InheritedKeys(s.frame) <= USIZE_MAX && t.keyCompareOps <= USIZE_MAX
              && t.keyCompareWork <= USIZE_MAX && t.distinctScanWork <= USIZE_MAX
    ensures s.totals.distinctScanWork <= USIZE_MAX
  {
    hide ScanAllowance, ScanWork;
  }

  predicate CompleteFits(s: Shape) {
    InheritedKeys(s.frame) <= USIZE_MAX && TotalsFit(Complete(s).totals)
  }

  lemma CompleteSteps(s: Shape)
    ensures var paired := s.totals.closeBindingPairs + s.frame.currentClosePaths * s.frame.currentBindings;
            && s.frame.currentClosePaths * s.frame.currentBindings <= paired
            && Complete(s) == Finish(s.(totals := s.totals.(closeBindingPairs := paired)))
            && (CompleteFits(s) <==>
                  paired <= USIZE_MAX && FinishFits(s.(totals := s.totals.(closeBindingPairs := paired))))
  {
    assert 0 <= s.frame.currentClosePaths * s.frame.currentBindings;
  }

  lemma LeaveByParts(s: Shape, outer: Shape)
    requires InRange(outer)
    ensures CanLeave(s, outer) <==> CompleteFits(s)
    ensures CanLeave(s, outer) ==> InRange(Leave(s, outer))
    ensures var done := Complete(s);
            Leave(s, outer)
            == Shape(done.lua55, done.totals, outer.frame, outer.names,
                     done.cost.(liveHandles := done.cost.liveHandles - Handles(s.names),
                                liveBytes := done.cost.liveBytes - HeldBytes(s.names)))
  {
  }

  lemma CompleteKeepsNames(s: Shape)
    ensures Complete(s).names == s.names
  {
  }

  /** A checked result: `add` and `mul` refuse what leaves `usize`. */
  function Within(value: nat): (r: Outcome)
    ensures r.Ok? <==> value <= USIZE_MAX
  {
    if value <= USIZE_MAX then Ok else Overflow
  }

  class ResolveShape {
    var blocks: nat
    var functions: nat
    var declarations: nat
    var references: nat
    var labels: nat
    var gotos: nat
    var closePaths: nat
    var genericFors: nat
    var nameBytes: nat
    var literalBytes: nat
    var currentBindings: nat
    var currentClosePaths: nat
    var currentKeyBytes: nat
    var inheritedBindings: nat
    var inheritedKeyBytes: nat
    var inheritedSum: nat
    var inheritedSquareSum: nat
    var inheritedKeySum: nat
    var closeBindingPairs: nat
    var currentReferences: nat
    var currentReferenceNameBytes: nat
    var referenceNameBytes: nat
    var distinctScanWork: nat
    var currentLabels: nat
    var currentGotos: nat
    const lua55: bool
    var distinctGlobalNames: Option<NameTable>
    var keyCompareOps: nat
    var keyCompareWork: nat
    var depth: nat
    var maxDepth: nat
    // What the second walk spends; the program keeps no such counters.
    ghost var probes: nat
    ghost var comparedBytes: nat
    ghost var cost: NameCost

    /** The counters that only grow, those of the current function, and the whole. */
    ghost function ViewTotals(): Totals
      reads this
    {
      Totals(
        blocks, functions, declarations, references, labels, gotos, closePaths, genericFors, nameBytes, literalBytes,
        inheritedSum, inheritedSquareSum, inheritedKeySum, closeBindingPairs, referenceNameBytes, distinctScanWork,
        keyCompareOps, keyCompareWork, maxDepth)
    }

    ghost function ViewFrame(): Frame
      reads this
    {
      Frame(
        inheritedBindings, inheritedKeyBytes, currentBindings, currentClosePaths, currentKeyBytes, currentReferences,
        currentReferenceNameBytes, currentLabels, currentGotos, depth, probes, comparedBytes)
    }

    ghost function View(): Shape
      reads this
    {
      Shape(lua55, ViewTotals(), ViewFrame(), distinctGlobalNames, cost)
    }

    ghost predicate Valid()
      reads this
    {
      InRange(View())
    }

    /** The walk starts in the root function; `distinct` selects the second Lua 5.5 walk. */
    constructor (lua55: bool, distinct: bool)
      ensures Valid() && View() == Root(lua55, distinct)
    {
      blocks, declarations, references, labels, gotos, closePaths, genericFors := 0, 0, 0, 0, 0, 0, 0;
      nameBytes, literalBytes, currentClosePaths, inheritedBindings, inheritedKeyBytes := 0, 0, 0, 0, 0;
      inheritedSum, inheritedSquareSum, inheritedKeySum, closeBindingPairs, currentReferences := 0, 0, 0, 0, 0;
      currentReferenceNameBytes, referenceNameBytes, distinctScanWork, currentLabels, currentGotos := 0, 0, 0, 0, 0;
      keyCompareOps, keyCompareWork, probes, comparedBytes := 0, 0, 0, 0;
      functions, currentBindings, currentKeyBytes, depth, maxDepth := 1, 1, SELF_KEY_BYTES, 1, 1;
      this.lua55 := lua55;
      distinctGlobalNames := if distinct then Some([]) else None;
      cost := NameCost(0, 0, 0, 0, 0);
    }

    /** The walk either consumed exactly `events` from `before`, or reported an overflow on the way. */
    ghost predicate Walked(before: Shape, events: Events, outcome: Outcome)
      reads this
    {
      && (outcome.Ok? <==> Clear(before, events))
      && (outcome.Ok? ==> View() == Fold(before, events) && Valid())
    }

    /** `binding`. */
    method AddBinding() returns (r: Outcome)
      requires Valid()
      modifies this`declarations, this`currentBindings
      ensures Walked(old(View()), [Binding], r)
    {
      hide Fold, Clear;
      OneEvent(View(), Binding);
      :- Within(declarations + 1);
      declarations := declarations + 1;
      :- Within(currentBindings + 1);
      currentBindings := currentBindings + 1;
      return Ok;
    }

    /** The hidden `self` parameter of a method. */
    method AddSelf() returns (r: Outcome)
      requires Valid()
      modifies this`declarations, this`currentBindings, this`currentKeyBytes
      ensures Walked(old(View()), [SelfBinding], r)
    {
      hide Fold, Clear;
      OneEvent(View(), SelfBinding);
      :- Within(declarations + 1);
      declarations := declarations + 1;
      :- Within(currentBindings + 1);
      currentBindings := currentBindings + 1;
      :- Within(currentKeyBytes + SELF_KEY_BYTES);
      currentKeyBytes := currentKeyBytes + SELF_KEY_BYTES;
      return Ok;
    }

    /** `name`, and with `key` also `key_name`. */
    method AddName(capacity: nat, key: bool) returns (r: Outcome)
      requires Valid()
      modifies this`nameBytes, this`currentKeyBytes
      ensures Walked(old(View()), [if key then KeyBytes(capacity) else NameBytes(capacity)], r)
    {
      hide Fold, Clear;
      OneEvent(View(), if key then KeyBytes(capacity) else NameBytes(capacity));
      :- Within(nameBytes + capacity);
      nameBytes := nameBytes + capacity;
      if key {
        :- Within(currentKeyBytes + capacity);
        currentKeyBytes := currentKeyBytes + capacity;
      }
      return Ok;
    }

    /** `add_close_paths`. */
    method AddClosePaths(count: nat) returns (r: Outcome)
      requires Valid()
      modifies this`closePaths, this`currentClosePaths
      ensures Walked(old(View()), [ClosePaths(count)], r)
    {
      hide Fold, Clear;
      OneEvent(View(), ClosePaths(count));
      :- Within(closePaths + count);
      closePaths := closePaths + count;
      :- Within(currentClosePaths + count);
      currentClosePaths := currentClosePaths + count;
      return Ok;
    }

    method AddLabel() returns (r: Outcome)
      requires Valid()
      modifies this`labels, this`currentLabels
      ensures Walked(old(View()), [LabelStart], r)
    {
      hide Fold, Clear;
      OneEvent(View(), LabelStart);
      :- Within(labels + 1);
      labels := labels + 1;
      :- Within(currentLabels + 1);
      currentLabels := currentLabels + 1;
      return Ok;
    }

    method AddGoto() returns (r: Outcome)
      requires Valid()
      modifies this`gotos, this`currentGotos
      ensures Walked(old(View()), [GotoStart], r)
    {
      hide Fold, Clear;
      OneEvent(View(), GotoStart);
      :- Within(gotos + 1);
      gotos := gotos + 1;
      :- Within(currentGotos + 1);
      currentGotos := currentGotos + 1;
      return Ok;
    }

    /** The counters bumped in place. */
    method Bump(event: Event) returns (r: Outcome)
      requires event.LiteralBytes? || event.BlockStart? || event.GenericForStart?
      requires Valid()
      modifies this`literalBytes, this`blocks, this`genericFors
      ensures Walked(old(View()), [event], r)
    {
      hide Fold, Clear;
      OneEvent(View(), event);
      match event {
        case LiteralBytes(n) =>
          :- Within(literalBytes + n);
          literalBytes := literalBytes + n;
        case BlockStart =>
          :- Within(blocks + 1);
          blocks := blocks + 1;
        case GenericForStart =>
          :- Within(genericFors + 1);
          genericFors := genericFors + 1;
      }
      return Ok;
    }

    method Count(event: Event) returns (r: Outcome)
      requires !event.Nested? && !event.Reference?
      requires Valid()
      modifies this
      ensures Walked(old(View()), [event], r)
    {
      hide View, Valid, Fold, Clear;
      match event {
        case Binding => r := AddBinding();
        case SelfBinding => r := AddSelf();
        case NameBytes(n) => r := AddName(n, false);
        case KeyBytes(n) => r := AddName(n, true);
        case ClosePaths(n) => r := AddClosePaths(n);
        case LabelStart => r := AddLabel();
        case GotoStart => r := AddGoto();
        case LiteralBytes(_) => r := Bump(event);
        case BlockStart => r := Bump(event);
        case GenericForStart => r := Bump(event);
      }
    }

    /** Searches the table of the current function for a name; the scan cost is measured as it goes. */
    method Known(names: NameTable, name: seq<Byte>) returns (known: bool, probes: nat, compared: nat)
      ensures known <==> name in names
      ensures probes == Probes(names, name) && compared == ComparedBytes(names, name)
    {
      known, probes, compared := false, 0, 0;
      var i := 0;
      while i < |names| && !known
        invariant 0 <= i <= |names|
        invariant known ==> name in names
        invariant !known ==> name !in names[..i]
        invariant Probes(names, name) == probes + if known then 0 else Probes(names[i..], name)
        invariant ComparedBytes(names, name) == compared + if known then 0 else ComparedBytes(names[i..], name)
        decreases |names| - i, !known
      {
        assert names[i..][1..] == names[i + 1..];
        probes := probes + 1;
        compared := compared + if |names[i]| == |name| then |name| else 0;
        if names[i] == name {
          known := true;
        } else {
          i := i + 1;
        }
      }
      if !known {
        assert names[..i] == names;
        assert names[i..] == [];
      }
    }

    /** The counters of every reference, in the totals and for the current function. */
    method CountReference(capacity: nat) returns (r: Outcome)
      requires Valid()
      modifies this`references, this`currentReferences, this`referenceNameBytes, this`currentReferenceNameBytes,
        this`nameBytes
      ensures r.Ok? <==> InRange(Mentioned(old(View()), capacity))
      ensures r.Ok? ==> View() == Mentioned(old(View()), capacity)
    {
      hide TotalsFit, FrameFits, ViewTotals, ViewFrame;
      ghost var start := View();
      MentionedFits(start, capacity);
      :- CountReferenceHere(capacity);
      r := CountReferenceInAll(capacity);
    }

    method CountReferenceHere(capacity: nat) returns (r: Outcome)
      requires FrameFits(ViewFrame())
      modifies this`currentReferences, this`currentReferenceNameBytes
      ensures ViewTotals() == old(ViewTotals())
      ensures r.Ok? <==> FrameFits(FrameMentioned(old(ViewFrame()), capacity))
      ensures r.Ok? ==> ViewFrame() == FrameMentioned(old(ViewFrame()), capacity)
    {
      hide TotalsFit;
      :- Within(currentReferences + 1);
      currentReferences := currentReferences + 1;
      :- Within(currentReferenceNameBytes + capacity);
      currentReferenceNameBytes := currentReferenceNameBytes + capacity;
      return Ok;
    }

    method CountReferenceInAll(capacity: nat) returns (r: Outcome)
      requires TotalsFit(ViewTotals())
      modifies this`references, this`referenceNameBytes, this`nameBytes
      ensures ViewFrame() == old(ViewFrame())
      ensures r.Ok? <==> TotalsFit(TotalsMentioned(old(ViewTotals()), capacity))
      ensures r.Ok? ==> ViewTotals() == TotalsMentioned(old(ViewTotals()), capacity)
    {
      hide FrameFits;
      :- Within(references + 1);
      references := references + 1;
      :- Within(referenceNameBytes + capacity);
      referenceNameBytes := referenceNameBytes + capacity;
      :- Within(nameBytes + capacity);
      nameBytes := nameBytes + capacity;
      return Ok;
    }

    /** An implicit global of the current function. */
    method DeclareImplicit(bindings: nat, capacity: nat) returns (r: Outcome)
      requires Valid()
      modifies this`currentBindings, this`currentKeyBytes
      ensures r.Ok? <==> InRange(WithImplicit(old(View()), bindings, capacity))
      ensures r.Ok? ==> View() == WithImplicit(old(View()), bindings, capacity)
    {
      hide TotalsFit;
      :- Within(currentBindings + bindings);
      currentBindings := currentBindings + bindings;
      :- Within(currentKeyBytes + capacity);
      currentKeyBytes := currentKeyBytes + capacity;
      return Ok;
    }

    /** Records what a look at the table cost. */
    ghost method NoteScan(scanned: nat, compared: nat)
      modifies this`probes, this`comparedBytes
      ensures ViewTotals() == old(ViewTotals())
      ensures ViewFrame()
              == old(ViewFrame()).(probes := old(probes) + scanned, comparedBytes := old(comparedBytes) + compared)
    {
      probes, comparedBytes := probes + scanned, comparedBytes + compared;
    }

    /** Looks a name up in the table of the current function, and enters it if it is new. */
    method FindOrRemember(name: seq<Byte>) returns (known: bool)
      requires distinctGlobalNames.Some?
      modifies this`distinctGlobalNames, this`probes, this`comparedBytes, this`cost
      ensures known <==> name in old(distinctGlobalNames).value
      ensures View() == Looked(old(View()), name)
    {
      hide Probes, ComparedBytes, Remember, ViewTotals, ViewFrame;
      assert probes == ViewFrame().probes && comparedBytes == ViewFrame().comparedBytes by { ScanFields(); }
      var names := distinctGlobalNames.value;
      var found, scanned, compared := Known(names, name);
      NoteScan(scanned, compared);
      known := found;
      if !known {
        Enlist(names, name);
      }
    }

    method Enlist(names: NameTable, name: seq<Byte>)
      modifies this`distinctGlobalNames, this`cost
      ensures ViewTotals() == old(ViewTotals()) && ViewFrame() == old(ViewFrame())
      ensures distinctGlobalNames == Some(names + [name]) && cost == Remember(old(cost), names, name)
    {
      cost := Remember(cost, names, name);
      distinctGlobalNames := Some(names + [name]);
    }

    /** A variable reference; in Lua 5.5 it may declare an implicit global of the current function. */
    method NameReference(name: Name) returns (r: Outcome)
      requires Valid()
      modifies this
      ensures Walked(old(View()), [Reference(name)], r)
    {
      hide InRange, Mentioned, WithImplicit, Looked, Fold, Clear, OnReference;
      ghost var start := View();
      OneEvent(start, Reference(name));
      ReferenceByParts(start, name);
      :- CountReference(name.Capacity());
      if !lua55 {
        return Ok;
      }
      if distinctGlobalNames.Some? {
        var known := FindOrRemember(name.items);
        if !known {
          r := DeclareImplicit(2, name.Capacity());
          return;
        }
        return Ok;
      }
      r := DeclareImplicit(1, name.Capacity());
    }

    method Declaration(local: LocalName) returns (r: Outcome)
      requires Valid()
      modifies this
      ensures Walked(old(View()), DeclarationEvents(local), r)
    {
      hide View, Valid, Fold, Clear;
      WalksChain();
      assert [Binding, KeyBytes(local.name.Capacity())] == [Binding] + [KeyBytes(local.name.Capacity())];
      :- Count(Binding);
      :- Count(KeyBytes(local.name.Capacity()));
      if local.attribute != NoAttribute {
        :- Count(NameBytes(AttributeCapacity(local.attribute)));
      }
      return Ok;
    }

    method Declarations(locals: seq<LocalName>) returns (r: Outcome)
      requires Valid()
      modifies this
      ensures Walked(old(View()), DeclarationListEvents(locals), r)
    {
      hide View, Valid, Fold, Clear, DeclarationEvents;
      WalksChain();
      ghost var start := View();
      for i := 0 to |locals|
        invariant Valid()
        invariant Fold(start, DeclarationListEvents(locals)) == Fold(View(), DeclarationListEvents(locals[i..]))
        invariant Clear(start, DeclarationListEvents(locals)) <==> Clear(View(), DeclarationListEvents(locals[i..]))
      {
        assert locals[i..][1..] == locals[i + 1..];
        :- Declaration(locals[i]);
      }
      return Ok;
    }

    /** The prefix of a new function goes into the three sums. */
    method AddPrefix(inherited: nat, inheritedKeys: nat) returns (r: Outcome)
      modifies this`inheritedSum, this`inheritedSquareSum, this`inheritedKeySum
      ensures r.Ok? <==>
                && old(inheritedSum) + inherited <= USIZE_MAX
                && old(inheritedSquareSum) + inherited * inherited <= USIZE_MAX
                && old(inheritedKeySum) + inheritedKeys <= USIZE_MAX
      ensures r.Ok? ==>
                && inheritedSum == old(inheritedSum) + inherited
                && inheritedSquareSum == old(inheritedSquareSum) + inherited * inherited
                && inheritedKeySum == old(inheritedKeySum) + inheritedKeys
    {
      var square: nat := inherited * inherited;
      :- Within(inheritedSum + inherited);
      inheritedSum := inheritedSum + inherited;
      :- Within(square);
      :- Within(inheritedSquareSum + square);
      inheritedSquareSum := inheritedSquareSum + square;
      :- Within(inheritedKeySum + inheritedKeys);
      inheritedKeySum := inheritedKeySum + inheritedKeys;
      return Ok;
    }

    /** Operations on keys, each as long as all keys of the map. */
    method AddKeyWork(operations: nat, keys: nat) returns (r: Outcome)
      modifies this`keyCompareOps, this`keyCompareWork
      ensures r.Ok? <==>
                && old(keyCompareOps) + operations <= USIZE_MAX
                && old(keyCompareWork) + operations * keys <= USIZE_MAX
      ensures r.Ok? ==>
                && keyCompareOps == old(keyCompareOps) + operations
                && keyCompareWork == old(keyCompareWork) + operations * keys
    {
      var work: nat := operations * keys;
      :- Within(operations);
      :- Within(keyCompareOps + operations);
      keyCompareOps := keyCompareOps + operations;
      :- Within(work);
      :- Within(keyCompareWork + work);
      keyCompareWork := keyCompareWork + work;
      return Ok;
    }

    /** The prepayment for one function's name scans. */
    method AddScanWork() returns (r: Outcome)
      modifies this`distinctScanWork, this`cost
      ensures var allowance := ScanAllowance(currentReferences, currentReferenceNameBytes);
              && (r.Ok? <==> old(distinctScanWork) + allowance <= USIZE_MAX)
              && (r.Ok? ==> distinctScanWork == old(distinctScanWork) + allowance)
      ensures r.Ok? ==> cost == old(cost).(scanWork := old(cost).scanWork + ScanWork(ViewFrame()))
    {
      var squares: nat := currentReferences * currentReferences;
      var products: nat := currentReferences * currentReferenceNameBytes;
      :- Within(squares);
      :- Within(PROBE_UNITS * squares);
      :- Within(products);
      :- Within(BYTE_UNITS * products);
      :- Within(PROBE_UNITS * squares + BYTE_UNITS * products);
      :- Within(REFERENCE_UNITS * currentReferences);
      var allowance := PROBE_UNITS * squares + BYTE_UNITS * products + REFERENCE_UNITS * currentReferences;
      :- Within(allowance);
      :- Within(distinctScanWork + allowance);
      distinctScanWork := distinctScanWork + allowance;
      cost := cost.(scanWork := cost.scanWork + ScanWork(ViewFrame()));
      return Ok;
    }

    /** `finish_function_key_work`. */
    method FinishKeyWork() returns (r: Outcome)
      requires Valid()
      modifies this`keyCompareOps, this`keyCompareWork, this`distinctScanWork, this`cost
      ensures r.Ok? <==> FinishFits(old(View()))
      ensures r.Ok? ==> View() == Finish(old(View()))
    {
      hide ScanAllowance, ScanWork, TotalsFit;
      FinishFitsParts(View());
      var operations := 4 * currentReferences + 4 * currentBindings + (currentGotos + currentLabels);
      var keys := inheritedKeyBytes + currentKeyBytes;
      :- Within(keys);
      :- AddKeyWork(operations, keys);
      if lua55 {
        :- AddScanWork();
      }
      return Ok;
    }

    /** The end of a function: its close paths paired with its bindings, and its key work. */
    method FinishFunction() returns (r: Outcome)
      requires Valid()
      modifies this`closeBindingPairs, this`keyCompareOps, this`keyCompareWork, this`distinctScanWork, this`cost
      ensures r.Ok? <==> CompleteFits(old(View()))
      ensures r.Ok? ==> View() == Complete(old(View()))
    {
      hide Finish, FinishFits;
      var pairs := currentClosePaths * currentBindings;
      ghost var before := View();
      CompleteSteps(before);
      :- Within(pairs);
      :- Within(closeBindingPairs + pairs);
      closeBindingPairs := closeBindingPairs + pairs;
      assert View() == before.(totals := before.totals.(closeBindingPairs := closeBindingPairs));
      r := FinishKeyWork();
    }

    /** Everything a new function counts for itself starts from nothing. */
    method ClearCounters()
      modifies this`currentBindings, this`currentClosePaths, this`currentKeyBytes, this`currentReferences,
        this`currentReferenceNameBytes, this`currentLabels, this`currentGotos, this`probes, this`comparedBytes
      ensures currentBindings == currentClosePaths == currentKeyBytes == currentReferences == 0
      ensures currentReferenceNameBytes == currentLabels == currentGotos == probes == comparedBytes == 0
    {
      currentBindings := 0;
      currentClosePaths := 0;
      currentKeyBytes := 0;
      currentReferences := 0;
      currentReferenceNameBytes := 0;
      currentLabels := 0;
      currentGotos := 0;
      probes, comparedBytes := 0, 0;
    }

    /** Puts back the ten saved counters. */
    method RestoreCounters(saved: (nat, nat, nat, nat, nat, nat, nat, nat, nat, nat))
      modifies this`inheritedBindings, this`inheritedKeyBytes, this`currentBindings, this`currentClosePaths,
        this`currentKeyBytes, this`currentReferences, this`currentReferenceNameBytes, this`currentLabels,
        this`currentGotos, this`depth
      ensures saved
              == (inheritedBindings, inheritedKeyBytes, currentBindings, currentClosePaths, currentKeyBytes,
                  currentReferences, currentReferenceNameBytes, currentLabels, currentGotos, depth)
    {
      inheritedBindings := saved.0;
      inheritedKeyBytes := saved.1;
      currentBindings := saved.2;
      currentClosePaths := saved.3;
      currentKeyBytes := saved.4;
      currentReferences := saved.5;
      currentReferenceNameBytes := saved.6;
      currentLabels := saved.7;
      currentGotos := saved.8;
      depth := saved.9;
    }

    /** The number of functions and the sums. */
    method OpenSums(inherited: nat, inheritedKeys: nat) returns (r: Outcome)
      requires TotalsFit(ViewTotals())
      modifies this`functions, this`inheritedSum, this`inheritedSquareSum, this`inheritedKeySum,
        this`keyCompareOps, this`keyCompareWork
      ensures ViewFrame() == old(ViewFrame())
      ensures r.Ok? <==> TotalsFit(PrefixTotals(old(ViewTotals()), inherited, inheritedKeys))
      ensures r.Ok? ==> ViewTotals() == PrefixTotals(old(ViewTotals()), inherited, inheritedKeys)
    {
      hide TotalsFit;
      PrefixTotalsFit(ViewTotals(), inherited, inheritedKeys);
      :- Within(functions + 1);
      functions := functions + 1;
      :- AddPrefix(inherited, inheritedKeys);
      r := AddKeyWork(2 * inherited, inheritedKeys);
    }

    /** The counters of the new function, one level deeper. */
    method Descend(inherited: nat, inheritedKeys: nat)
      modifies this`inheritedBindings, this`inheritedKeyBytes, this`currentBindings, this`currentClosePaths,
        this`currentKeyBytes, this`currentReferences, this`currentReferenceNameBytes, this`currentLabels,
        this`currentGotos, this`depth, this`probes, this`comparedBytes
      ensures ViewTotals() == old(ViewTotals())
      ensures ViewFrame() == EmptyFrame(inherited, inheritedKeys, old(depth) + 1)
    {
      ClearCounters();
      inheritedBindings, inheritedKeyBytes := inherited, inheritedKeys;
      depth := depth + 1;
    }

    method RaiseMaxDepth(level: nat)
      modifies this`maxDepth
      ensures ViewFrame() == old(ViewFrame())
      ensures ViewTotals() == old(ViewTotals()).(maxDepth := Max(old(ViewTotals()).maxDepth, level))
    {
      maxDepth := Max(maxDepth, level);
    }

    method ReplaceNames(names: Option<NameTable>)
      modifies this`distinctGlobalNames
      ensures distinctGlobalNames == names
      ensures ViewFrame() == old(ViewFrame()) && ViewTotals() == old(ViewTotals())
    {
      distinctGlobalNames := names;
    }

    /** The sums, and everything for the new function cleared, one level deeper: this is `Enter`. */
    method OpenFunction() returns (r: Outcome)
      requires Valid()
      modifies this
      ensures r.Ok? <==> InRange(Enter(old(View())))
      ensures r.Ok? ==> View() == Enter(old(View()))
    {
      hide Enter, InRange, TotalsFit, FrameFits, PrefixTotals, ViewTotals, ViewFrame;
      ghost var outer := View();
      EnterByParts(outer);
      FrameFields();
      var inherited := inheritedBindings + currentBindings;
      :- Within(inherited);
      var inheritedKeys := inheritedKeyBytes + currentKeyBytes;
      :- Within(inheritedKeys);
      var level := depth + 1;
      :- OpenSums(inherited, inheritedKeys);
      :- Within(level);
      Descend(inherited, inheritedKeys);
      ReplaceNames(if distinctGlobalNames.Some? then Some([]) else None);
      RaiseMaxDepth(level);
      return Ok;
    }

    /** Puts back what was saved; the table of the function is dropped. */
    method CloseFrame(
      saved: (nat, nat, nat, nat, nat, nat, nat, nat, nat, nat), savedNames: Option<NameTable>, ghost outer: Frame)
      requires saved == Saved(outer)
      modifies this`inheritedBindings, this`inheritedKeyBytes, this`currentBindings, this`currentClosePaths,
        this`currentKeyBytes, this`currentReferences, this`currentReferenceNameBytes, this`currentLabels,
        this`currentGotos, this`distinctGlobalNames, this`depth, this`probes, this`comparedBytes, this`cost
      ensures ViewFrame() == outer && ViewTotals() == old(ViewTotals()) && distinctGlobalNames == savedNames
      ensures cost
              == old(cost).(
                liveHandles := old(cost).liveHandles - Handles(old(distinctGlobalNames)),
                liveBytes := old(cost).liveBytes - HeldBytes(old(distinctGlobalNames)))
    {
      hide ViewTotals, Handles, HeldBytes;
      RestoreFrame(saved);
      DropTable(outer.probes, outer.comparedBytes);
      ReplaceNames(savedNames);
    }

    method RestoreFrame(saved: (nat, nat, nat, nat, nat, nat, nat, nat, nat, nat))
      modifies this`inheritedBindings, this`inheritedKeyBytes, this`currentBindings, this`currentClosePaths,
        this`currentKeyBytes, this`currentReferences, this`currentReferenceNameBytes, this`currentLabels,
        this`currentGotos, this`depth
      ensures Saved(ViewFrame()) == saved && ViewTotals() == old(ViewTotals())
    {
      RestoreCounters(saved);
    }

    /** The scan counts of the enclosing function come back, and the handles and bytes of the table go. */
    ghost method DropTable(outerProbes: nat, outerCompared: nat)
      modifies this`probes, this`comparedBytes, this`cost
      ensures ViewTotals() == old(ViewTotals()) && probes == outerProbes && comparedBytes == outerCompared
      ensures cost
              == old(cost).(
                liveHandles := old(cost).liveHandles - Handles(distinctGlobalNames),
                liveBytes := old(cost).liveBytes - HeldBytes(distinctGlobalNames))
    {
      cost := cost.(
        liveHandles := cost.liveHandles - Handles(distinctGlobalNames),
        liveBytes := cost.liveBytes - HeldBytes(distinctGlobalNames));
      probes, comparedBytes := outerProbes, outerCompared;
    }

    /**
     * `function`: saves ten counters and the name table, opens the function, walks parameters
     * and body, closes it, and puts back what was saved.
     */
    method NestedFunction(body: FunctionBody, hasSelf: bool) returns (r: Outcome)
      requires Valid()
      modifies this
      ensures Walked(old(View()), [Nested(FunctionEvents(body, hasSelf))], r)
      ensures r.Ok? ==> ViewFrame() == old(ViewFrame()) && distinctGlobalNames == old(distinctGlobalNames)
      decreases body, 1
    {
      hide Fold, Clear, InRange, Enter, Leave, Complete, CompleteFits, FunctionEvents, ViewTotals, ViewFrame;
      ghost var outer, events := View(), FunctionEvents(body, hasSelf);
      OneEvent(outer, Nested(events));
      FrameFields();
      var savedNames := distinctGlobalNames;
      var saved := (
        inheritedBindings, inheritedKeyBytes, currentBindings, currentClosePaths, currentKeyBytes, currentReferences,
        currentReferenceNameBytes, currentLabels, currentGotos, depth);
      :- OpenFunction();
      :- FunctionParts(body, hasSelf);
      ghost var inner := View();
      LeaveByParts(inner, outer);
      CompleteKeepsNames(inner);
      :- FinishFunction();
      CloseFrame(saved, savedNames, outer.frame);
      return Ok;
    }

    lemma FrameFields()
      ensures Saved(ViewFrame())
              == (inheritedBindings, inheritedKeyBytes, currentBindings, currentClosePaths, currentKeyBytes,
                  currentReferences, currentReferenceNameBytes, currentLabels, currentGotos, depth)
    {
    }

    lemma ScanFields()
      ensures ViewFrame().probes == probes && ViewFrame().comparedBytes == comparedBytes
    {
    }

    method FunctionParts(body: FunctionBody, hasSelf: bool) returns (r: Outcome)
      requires Valid()
      modifies this
      ensures Walked(old(View()), FunctionEvents(body, hasSelf), r)
      decreases body, 0
    {
      hide View, Valid, Fold, Clear, DeclarationListEvents, DeclarationEvents, BlockEvents;
      WalksChain();
      if hasSelf {
        :- Count(SelfBinding);
      }
      :- Declarations(body.parameters.items);
      match body.vararg {
        case NamedVararg(table) => :- Declaration(table);
        case _ =>
      }
      r := Block(body.body);
    }

    method Block(block: Block) returns (r: Outcome)
      requires Valid()
      modifies this
      ensures Walked(old(View()), BlockEvents(block), r)
      decreases block
    {
      hide View, Valid, Fold, Clear, StmtEvents;
      WalksChain();
      assert [BlockStart, ClosePaths(2)] == [BlockStart] + [ClosePaths(2)];
      :- Count(BlockStart);
      :- Count(ClosePaths(2));
      var statements := block.statements.items;
      ghost var start := View();
      for i := 0 to |statements|
        invariant Valid()
        invariant Fold(start, StmtListEvents(statements)) == Fold(View(), StmtListEvents(statements[i..]))
        invariant Clear(start, StmtListEvents(statements)) <==> Clear(View(), StmtListEvents(statements[i..]))
      {
        assert statements[i..][1..] == statements[i + 1..];
        :- Statement(statements[i]);
      }
      return Ok;
    }

    method Expressions(es: seq<Expr>) returns (r: Outcome)
      requires Valid()
      modifies this
      ensures Walked(old(View()), ExprListEvents(es), r)
      decreases es, 0
    {
      hide View, Valid, Fold, Clear, ExprEvents;
      WalksChain();
      ghost var start := View();
      for i := 0 to |es|
        invariant Valid()
        invariant Fold(start, ExprListEvents(es)) == Fold(View(), ExprListEvents(es[i..]))
        invariant Clear(start, ExprListEvents(es)) <==> Clear(View(), ExprListEvents(es[i..]))
      {
        assert es[i..][1..] == es[i + 1..];
        :- Expression(es[i]);
      }
      return Ok;
    }

    method Clauses(clauses: seq<IfClause>) returns (r: Outcome)
      requires Valid()
      modifies this
      ensures Walked(old(View()), ClauseListEvents(clauses), r)
      decreases clauses, 0
    {
      hide View, Valid, Fold, Clear, ClauseEvents;
      WalksChain();
      ghost var start := View();
      for i := 0 to |clauses|
        invariant Valid()
        invariant Fold(start, ClauseListEvents(clauses)) == Fold(View(), ClauseListEvents(clauses[i..]))
        invariant Clear(start, ClauseListEvents(clauses)) <==> Clear(View(), ClauseListEvents(clauses[i..]))
      {
        assert clauses[i..][1..] == clauses[i + 1..];
        :- Clause(clauses[i]);
      }
      return Ok;
    }

    method Clause(clause: IfClause) returns (r: Outcome)
      requires Valid()
      modifies this
      ensures Walked(old(View()), ClauseEvents(clause), r)
      decreases clause
    {
      hide View, Valid, Fold, Clear, ExprEvents, BlockEvents;
      WalksChain();
      :- Expression(clause.condition);
      r := Block(clause.body);
    }

    method Fields(fields: seq<TableField>) returns (r: Outcome)
      requires Valid()
      modifies this
      ensures Walked(old(View()), FieldListEvents(fields), r)
      decreases fields, 0
    {
      hide View, Valid, Fold, Clear, FieldEvents;
      WalksChain();
      ghost var start := View();
      for i := 0 to |fields|
        invariant Valid()
        invariant Fold(start, FieldListEvents(fields)) == Fold(View(), FieldListEvents(fields[i..]))
        invariant Clear(start, FieldListEvents(fields)) <==> Clear(View(), FieldListEvents(fields[i..]))
      {
        assert fields[i..][1..] == fields[i + 1..];
        :- FieldEntry(fields[i]);
      }
      return Ok;
    }

    method FieldEntry(field: TableField) returns (r: Outcome)
      requires Valid()
      modifies this
      ensures Walked(old(View()), FieldEvents(field), r)
      decreases field
    {
      hide View, Valid, Fold, Clear, ExprEvents;
      WalksChain();
      match field {
        case Array(value, _) => r := Expression(value);
        case Named(name, value, _) =>
          :- Count(NameBytes(name.Capacity()));
          r := Expression(value);
        case Indexed(key, value, _) =>
          :- Expression(key);
          r := Expression(value);
      }
    }

    method Expression(e: Expr) returns (r: Outcome)
      requires Valid()
      modifies this
      ensures Walked(old(View()), ExprEvents(e), r)
      decreases e, 1
    {
      hide View, Valid, Fold, Clear, CallEvents, FunctionEvents, FieldListEvents;
      WalksChain();
      match e {
        case Constant(literal) => r := Count(LiteralBytes(LiteralCapacity(literal)));
        case Nil => return Ok;
        case Bool(_) => return Ok;
        case Vararg => return Ok;
        case Var(name) => r := NameReference(name);
        case Unary(_, operand) => r := Expression(operand);
        case Paren(inner) => r := Expression(inner);
        case Binary(_, left, right) =>
          :- Expression(left);
          r := Expression(right);
        case Index(base, index) =>
          :- Expression(base);
          r := Expression(index);
        case Field(base, name) =>
          :- Expression(base);
          r := Count(NameBytes(name.Capacity()));
        case CallExpr(call) => r := CallExpression(call);
        case Function(body) => r := NestedFunction(body, false);
        case Table(fields) => r := Fields(fields.items);
      }
    }

    method CallExpression(call: Call) returns (r: Outcome)
      requires Valid()
      modifies this
      ensures Walked(old(View()), CallEvents(call), r)
      decreases call
    {
      hide View, Valid, Fold, Clear, ExprEvents, ExprListEvents;
      WalksChain();
      match call {
        case Call(callee, arguments, _) =>
          :- Expression(callee);
          r := Expressions(arguments.items);
        case MethodCall(receiver, name, arguments, _) =>
          :- Expression(receiver);
          :- Count(NameBytes(name.Capacity()));
          r := Expressions(arguments.items);
      }
    }

    method Global(declaration: GlobalDeclaration) returns (r: Outcome)
      requires Valid()
      modifies this
      ensures Walked(old(View()), GlobalEvents(declaration), r)
      decreases declaration
    {
      hide View, Valid, Fold, Clear, ExprListEvents, DeclarationListEvents, FunctionEvents;
      WalksChain();
      match declaration {
        case GlobalNames(names, _, values, prefixAttribute) =>
          :- Declarations(names.items);
          :- Expressions(values.items);
          r := OptionalName(prefixAttribute);
        case GlobalStar(prefixAttribute) => r := OptionalName(prefixAttribute);
        case GlobalFunction(name, body) =>
          assert GlobalEvents(declaration)
                 == [Binding] + [KeyBytes(name.Capacity())] + [Nested(FunctionEvents(body, false))];
          :- Count(Binding);
          :- Count(KeyBytes(name.Capacity()));
          r := NestedFunction(body, false);
      }
    }

    method OptionalName(name: Option<Name>) returns (r: Outcome)
      requires Valid()
      modifies this
      ensures Walked(old(View()), NameEvents(name), r)
    {
      hide View, Valid, Fold, Clear;
      WalksChain();
      match name {
        case Some(value) => r := Count(NameBytes(value.Capacity()));
        case None => return Ok;
      }
    }

    method Statement(s: Stmt) returns (r: Outcome)
      requires Valid()
      modifies this
      ensures Walked(old(View()), StmtEvents(s), r)
      decreases s, 1
    {
      hide View, Valid, Fold, Clear, CallEvents, GlobalEvents, BlockEvents, ExprListEvents, DeclarationListEvents,
          ExprEvents;
      match s {
        case Empty =>
          WalksChain();
          return Ok;
        case Return(values, _) =>
          WalksChain();
          :- Count(ClosePaths(1));
          r := Expressions(values.items);
        case Assignment(targets, values) =>
          WalksChain();
          :- Expressions(targets.items);
          r := Expressions(values.items);
        case CallStmt(call) => r := CallExpression(call);
        case Local(_, names, _, values) =>
          WalksChain();
          :- Declarations(names.items);
          r := Expressions(values.items);
        case Global(declaration) => r := Global(declaration);
        case Break => r := Count(ClosePaths(1));
        case Goto(_) => r := Jump(s);
        case Label(_) => r := Jump(s);
        case Do(body) => r := Block(body);
        case FunctionStmt(_, _, _) => r := FunctionStatement(s);
        case LocalFunction(_, _) => r := FunctionStatement(s);
        case GenericFor(_, _, _) => r := GenericLoop(s);
        case _ => r := Compound(s);
      }
    }

    method Jump(s: Stmt) returns (r: Outcome)
      requires s.Goto? || s.Label?
      requires Valid()
      modifies this
      ensures Walked(old(View()), StmtEvents(s), r)
    {
      hide View, Valid, Fold, Clear;
      WalksChain();
      match s {
        case Goto(name) =>
          assert StmtEvents(s) == [GotoStart] + [ClosePaths(1)] + [KeyBytes(name.Capacity())];
          :- Count(GotoStart);
          :- Count(ClosePaths(1));
          r := Count(KeyBytes(name.Capacity()));
        case Label(name) =>
          assert StmtEvents(s) == [LabelStart] + [KeyBytes(name.Capacity())];
          :- Count(LabelStart);
          r := Count(KeyBytes(name.Capacity()));
      }
    }

    method FunctionStatement(s: Stmt) returns (r: Outcome)
      requires s.FunctionStmt? || s.LocalFunction?
      requires Valid()
      modifies this
      ensures Walked(old(View()), StmtEvents(s), r)
      decreases s, 0
    {
      hide View, Valid, Fold, Clear, ExprEvents, NameEvents, DeclarationEvents, FunctionEvents;
      WalksChain();
      match s {
        case FunctionStmt(target, methodName, definition) =>
          :- Expression(target);
          :- OptionalName(methodName);
          r := NestedFunction(definition, methodName.Some?);
        case LocalFunction(name, definition) =>
          :- Declaration(name);
          r := NestedFunction(definition, false);
      }
    }

    method Compound(s: Stmt) returns (r: Outcome)
      requires s.If? || s.While? || s.Repeat? || s.NumericFor?
      requires Valid()
      modifies this
      ensures Walked(old(View()), StmtEvents(s), r)
      decreases s, 0
    {
      hide View, Valid, Fold, Clear, BlockEvents, ExprListEvents, DeclarationListEvents, DeclarationEvents, ExprEvents,
        ClauseListEvents;
      WalksChain();
      match s {
        case If(clauses, elseBlock) =>
          :- Clauses(clauses.items);
          match elseBlock {
            case Some(body) => r := Block(body);
            case None => return Ok;
          }
        case While(condition, body) =>
          :- Expression(condition);
          r := Block(body);
        case Repeat(body, condition) =>
          :- Expression(condition);
          r := Block(body);
        case NumericFor(name, initial, limit, step, body) =>
          :- Declaration(name);
          :- Expression(initial);
          :- Expression(limit);
          match step {
            case Some(e) => :- Expression(e);
            case None =>
          }
          r := Block(body);
      }
    }

    /** A generic `for` also declares the hidden binding that is closed on exit. */
    method GenericLoop(s: Stmt) returns (r: Outcome)
      requires s.GenericFor?
      requires Valid()
      modifies this
      ensures Walked(old(View()), StmtEvents(s), r)
      decreases s, 0
    {
      hide View, Valid, Fold, Clear, BlockEvents, ExprListEvents, DeclarationListEvents;
      WalksChain();
      assert [GenericForStart, Binding, ClosePaths(1)] == [GenericForStart] + [Binding] + [ClosePaths(1)];
      :- Count(GenericForStart);
      :- Count(Binding);
      :- Count(ClosePaths(1));
      :- Declarations(s.names.items);
      :- Expressions(s.values.items);
      r := Block(s.body);
    }
  }

  /** The walk of a whole module, root function included, stays in range. */
  predicate WalkFits(root: Block, lua55: bool, distinct: bool) {
    Clear(Root(lua55, distinct), BlockEvents(root)) && FinishFits(Fold(Root(lua55, distinct), BlockEvents(root)))
  }

  function Walk(root: Block, lua55: bool, distinct: bool): Shape {
    Finish(Fold(Root(lua55, distinct), BlockEvents(root)))
  }

  /** One walk: the root block, and then the key work of the root function. */
  method WalkModule(root: Block, lua55: bool, distinct: bool) returns (r: Outcome, shape: ResolveShape)
    ensures fresh(shape)
    ensures r.Ok? <==> WalkFits(root, lua55, distinct)
    ensures r.Ok? ==> shape.View() == Walk(root, lua55, distinct)
  {
    hide Fold, Clear, Finish, FinishFits, Root, BlockEvents, InRange;
    shape := new ResolveShape(lua55, distinct);
    :- shape.Block(root);
    r := shape.FinishKeyWork();
  }

  /** What the first walk of a Lua 5.5 module prepays; `handle` is the size of a name's handle. */
  function PrepaidWork(first: Shape, shapeWork: nat): nat { first.totals.distinctScanWork + shapeWork }

  function PrepaidBytes(first: Shape, handle: nat): nat {
    4 * (first.totals.references * handle) + 4 * first.totals.referenceNameBytes
  }

  /** Eleven totals as counts in the tree; the root function counts as one more. */
  ghost predicate Counted(root: Block, t: Totals) {
    forall c: ShapeCounts.Counter ::
      ShapeCounts.TotalOf(c, t)
      == ShapeCounts.TreeCount(c, BlockTree(root)) + if c == ShapeCounts.Functions then 1 else 0
  }

  /** The inherited sums, over what is visible to each nested function when the walk reaches it. */
  ghost predicate Inherited(root: Block, lua55: bool, distinct: bool, t: Totals) {
    var prefixes := ShapePrefixes.ModulePrefixes(Mode(lua55, distinct), root);
    && t.inheritedSum == SumBindings(prefixes) && t.inheritedSquareSum == SumSquares(prefixes)
    && t.inheritedKeySum == SumKeys(prefixes)
  }

  /** Pairs, lookups, compared bytes, scan work and depth, over the functions of the module. */
  ghost predicate Summed(root: Block, lua55: bool, distinct: bool, t: Totals) {
    var mode := Mode(lua55, distinct);
    var scopes := ShapeSums.ModuleScopes(mode, root);
    && ShapeSums.SumsOf(t) == ShapeSums.Add(ShapeSums.TotalSums(mode, scopes), ShapeSums.RootSums(mode, root))
    && t.maxDepth == Max(1, ShapeSums.Deepest(scopes))
  }

  lemma WalkIsCounted(root: Block, lua55: bool, distinct: bool)
    ensures Counted(root, Walk(root, lua55, distinct).totals)
    ensures Inherited(root, lua55, distinct, Walk(root, lua55, distinct).totals)
    ensures Summed(root, lua55, distinct, Walk(root, lua55, distinct).totals)
  {
    hide Fold, Root, BlockEvents, Finish, BlockTree, ShapeCounts.TreeCount, SumBindings, SumSquares, SumKeys;
    forall c: ShapeCounts.Counter
      ensures ShapeCounts.TotalOf(c, Walk(root, lua55, distinct).totals)
              == ShapeCounts.TreeCount(c, BlockTree(root)) + if c == ShapeCounts.Functions then 1 else 0
    {
      ShapeCounts.ModuleCounts(c, lua55, distinct, root);
    }
    ShapePrefixes.InheritedSumsOfModule(lua55, distinct, root);
    ShapeSums.SumsOfModule(lua55, distinct, root);
  }

  /**
   * The shape stage of `resolve_with_budget`: one walk for Lua 5.4; for Lua 5.5 a first walk
   * whose counters prepay the allocating second one. The stage succeeds exactly if no counter
   * and no charge leaves `usize`. The second walk then keeps within the work that was charged,
   * and its open name tables, with both buffers of one that grows, within the memory.
   */
  method MeasureShape(root: Block, lua55: bool, shapeWork: nat, handle: nat)
    returns (r: Outcome, first: ResolveShape, final: ResolveShape)
    ensures r.Ok? <==>
              && WalkFits(root, lua55, false)
              && (lua55 ==>
                    && PrepaidWork(Walk(root, true, false), shapeWork) <= USIZE_MAX
                    && PrepaidBytes(Walk(root, true, false), handle) <= USIZE_MAX
                    && WalkFits(root, true, true))
    ensures r.Ok? ==> first.View() == Walk(root, lua55, false) && final.View() == Walk(root, lua55, lua55)
    ensures r.Ok? ==> Counted(root, final.View().totals) && Inherited(root, lua55, lua55, final.View().totals)
    ensures r.Ok? ==> Summed(root, lua55, lua55, final.View().totals)
    ensures r.Ok? && lua55 ==>
              && final.cost.scanWork + shapeWork <= PrepaidWork(first.View(), shapeWork)
              && final.cost.peakHandles * handle + final.cost.peakBytes <= PrepaidBytes(first.View(), handle)
  {
    hide Walk, WalkFits, Counted, Inherited, Summed;
    WalkIsCounted(root, lua55, lua55);
    r, first := WalkModule(root, lua55, false);
    final := first;
    if r.Overflow? || !lua55 {
      return;
    }
    PrepaidSteps(first.references, handle, first.referenceNameBytes);
    :- Within(first.references * handle);
    :- Within(4 * (first.references * handle));
    :- Within(4 * first.referenceNameBytes);
    :- Within(4 * (first.references * handle) + 4 * first.referenceNameBytes);
    :- Within(first.distinctScanWork + shapeWork);
    r, final := WalkModule(root, lua55, true);
    if r.Ok? {
      SecondIsPrepaid(root, shapeWork, handle);
    }
  }

  lemma PrepaidSteps(references: nat, handle: nat, bytes: nat)
    ensures 0 <= references * handle
  {
  }

  lemma SecondIsPrepaid(root: Block, shapeWork: nat, handle: nat)
    ensures var first, second := Walk(root, true, false), Walk(root, true, true);
            && second.cost.scanWork + shapeWork <= PrepaidWork(first, shapeWork)
            && second.cost.peakHandles * handle + second.cost.peakBytes <= PrepaidBytes(first, handle)
  {
    hide Fold, Root, BlockEvents, Finish;
    NameWalkIsPrepaid(BlockEvents(root));
    var first, second := Walk(root, true, false), Walk(root, true, true);
    ScaledHandles(second.cost.peakHandles, first.totals.references, handle);
  }

  lemma ScaledHandles(handles: int, references: nat, handle: nat)
    requires handles <= 4 * references
    ensures handles * handle <= 4 * (references * handle)
  {
    assert (4 * references - handles) * handle >= 0;
    assert (4 * references - handles) * handle == 4 * (references * handle) - handles * handle;
  }
}
