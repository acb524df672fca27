/** The totals of the scope-shape walk are counts of nodes and sums of capacities in the tree. */
module ShapeCounts {
  import opened Checked
  import opened Ast
  import opened AstTree
  import opened AstOwnership
  import opened ShapeEvents
  import opened ShapeTree
  import opened ShapeWalk

  datatype Counter =
    | Functions | References | Declarations | Blocks | Labels | Gotos | ClosePathCount | GenericFors
    | NameSize | LiteralSize | ReferenceSize

  function TotalOf(c: Counter, t: Totals): nat {
    match c
    case Functions => t.functions
    case References => t.references
    case Declarations => t.declarations
    case Blocks => t.blocks
    case Labels => t.labels
    case Gotos => t.gotos
    case ClosePathCount => t.closePaths
    case GenericFors => t.genericFors
    case NameSize => t.nameBytes
    case LiteralSize => t.literalBytes
    case ReferenceSize => t.referenceNameBytes
  }

  /**
   * What a node counts for. Besides the names that are written, a generic `for` declares a hidden
   * binding and a method its `self`.
   */
  function NodeCount(c: Counter, head: Head): nat {
    match c
    case Functions => if head.FunctionHead? then 1 else 0
    case References => if head.VarHead? then 1 else 0
    case Declarations =>
      if head.LocalNameHead? || head.GlobalFunctionHead? || head.GenericForHead? || (head.FunctionHead? && head.hasSelf)
      then 1 else 0
    case Blocks => if head.BlockHead? then 1 else 0
    case Labels => if head.LabelHead? then 1 else 0
    case Gotos => if head.GotoHead? then 1 else 0
    case ClosePathCount =>
      if head.BlockHead? then 2
      else if head.ReturnHead? || head.BreakHead? || head.GotoHead? || head.GenericForHead? then 1 else 0
    case GenericFors => if head.GenericForHead? then 1 else 0
    case NameSize => if head.TextHead? && head.role != Content then head.text.Capacity() else 0
    case LiteralSize => if head.TextHead? && head.role == Content then head.text.Capacity() else 0
    case ReferenceSize => if IsMention(head) then head.text.Capacity() else 0
  }

  function TreeCount(c: Counter, t: Tree): nat
    decreases t
  {
    NodeCount(c, t.head) + PartsCount(c, t.parts)
  }

  function PartsCount(c: Counter, parts: seq<Tree>): nat
    decreases parts
  {
    if |parts| == 0 then 0 else TreeCount(c, parts[0]) + PartsCount(c, parts[1..])
  }

  // The same for events.

  function EventCount(c: Counter, event: Event): nat
    decreases event
  {
    match event
    case Nested(body) => (if c == Functions then 1 else 0) + EventsCount(c, body)
    case Binding => if c == Declarations then 1 else 0
    case SelfBinding => if c == Declarations then 1 else 0
    case NameBytes(n) => if c == NameSize then n else 0
    case KeyBytes(n) => if c == NameSize then n else 0
    case LiteralBytes(n) => if c == LiteralSize then n else 0
    case Reference(name) =>
      if c == References then 1 else if c == NameSize || c == ReferenceSize then name.Capacity() else 0
    case ClosePaths(n) => if c == ClosePathCount then n else 0
    case BlockStart => if c == Blocks then 1 else 0
    case LabelStart => if c == Labels then 1 else 0
    case GotoStart => if c == Gotos then 1 else 0
    case GenericForStart => if c == GenericFors then 1 else 0
  }

  function EventsCount(c: Counter, events: Events): nat
    decreases events
  {
    if |events| == 0 then 0 else EventCount(c, events[0]) + EventsCount(c, events[1..])
  }

  lemma {:induction false} CountOfConcat(c: Counter, a: Events, b: Events)
    ensures EventsCount(c, a + b) == EventsCount(c, a) + EventsCount(c, b)
    decreases a
  {
    hide EventCount;
    if |a| == 0 {
      assert a + b == b;
    } else {
      assert (a + b)[1..] == a[1..] + b;
      CountOfConcat(c, a[1..], b);
    }
  }

  lemma CountOfOne(c: Counter, event: Event)
    ensures EventsCount(c, [event]) == EventCount(c, event)
  {
    hide EventCount;
    assert [event][1..] == [];
  }

  lemma CountOfThree(c: Counter, x: Event, y: Event, z: Event)
    ensures EventsCount(c, [x, y]) == EventCount(c, x) + EventCount(c, y)
    ensures EventsCount(c, [x, y, z]) == EventCount(c, x) + EventCount(c, y) + EventCount(c, z)
  {
    hide EventCount, EventsCount;
    assert [x, y] == [x] + [y] && [x, y, z] == [x, y] + [z];
    CountOfConcat(c, [x], [y]);
    CountOfConcat(c, [x, y], [z]);
    CountOfOne(c, x);
    CountOfOne(c, y);
    CountOfOne(c, z);
  }

  predicate IsEventful(head: Head) {
    || head.LocalNameHead? || head.GlobalFunctionHead? || head.FunctionHead? || head.TextHead? || head.LiteralHead?
    || head.BlockHead? || head.ReturnHead? || head.BreakHead? || head.GotoHead? || head.LabelHead?
    || head.GenericForHead?
  }

  lemma QuietHeadCounts(c: Counter, head: Head)
    requires !IsEventful(head)
    ensures HeadEvents(head) == [] && NodeCount(c, head) == if c == References && head.VarHead? then 1 else 0
  {
  }

  /** Except for a function itself and for variables, a node counts for what its own events count for. */
  lemma HeadCounts(c: Counter, head: Head)
    requires !IsMention(head)
    ensures NodeCount(c, head)
            == EventsCount(c, HeadEvents(head))
               + (if c == Functions && head.FunctionHead? then 1 else 0)
               + (if c == References && head.VarHead? then 1 else 0)
  {
    hide EventsCount, NodeCount, HeadEvents;
    if !IsEventful(head) {
      QuietHeadCounts(c, head);
      NoCount(c);
    } else if head.LocalNameHead? || head.GlobalFunctionHead? || head.FunctionHead? || head.LiteralHead? {
      NamingHeadCounts(c, head);
    } else if head.TextHead? {
      TextCounts(c, head.role, head.text);
    } else {
      FlowHeadCounts(c, head);
    }
  }

  lemma NamingHeadCounts(c: Counter, head: Head)
    requires head.LocalNameHead? || head.GlobalFunctionHead? || head.FunctionHead? || head.LiteralHead?
    ensures NodeCount(c, head)
            == EventsCount(c, HeadEvents(head)) + if c == Functions && head.FunctionHead? then 1 else 0
  {
    hide EventsCount;
    NoCount(c);
    CountOfOne(c, Binding);
    CountOfOne(c, SelfBinding);
    CountOfOne(c, LiteralBytes(0));
  }

  lemma FlowHeadCounts(c: Counter, head: Head)
    requires || head.BlockHead? || head.ReturnHead? || head.BreakHead? || head.GotoHead? || head.LabelHead?
             || head.GenericForHead?
    ensures NodeCount(c, head) == EventsCount(c, HeadEvents(head))
  {
    hide EventsCount, HeadEvents, NodeCount;
    match head {
      case BlockHead => BlockCounts(c);
      case GotoHead => GotoCounts(c);
      case GenericForHead => GenericForCounts(c);
      case _ => JumpCounts(c, head);
    }
  }

  lemma JumpCounts(c: Counter, head: Head)
    requires head.ReturnHead? || head.BreakHead? || head.LabelHead?
    ensures NodeCount(c, head) == EventsCount(c, HeadEvents(head))
  {
    hide EventsCount;
    CountOfOne(c, if head.LabelHead? then LabelStart else ClosePaths(1));
  }

  lemma BlockCounts(c: Counter)
    ensures NodeCount(c, BlockHead) == EventsCount(c, HeadEvents(BlockHead))
  {
    hide EventsCount;
    CountOfThree(c, BlockStart, ClosePaths(2), Binding);
  }

  lemma GotoCounts(c: Counter)
    ensures NodeCount(c, GotoHead) == EventsCount(c, HeadEvents(GotoHead))
  {
    hide EventsCount;
    CountOfThree(c, GotoStart, ClosePaths(1), Binding);
  }

  lemma GenericForCounts(c: Counter)
    ensures NodeCount(c, GenericForHead) == EventsCount(c, HeadEvents(GenericForHead))
  {
    hide EventsCount;
    CountOfThree(c, GenericForStart, Binding, ClosePaths(1));
  }

  lemma TextCounts(c: Counter, role: Role, text: Name)
    ensures EventsCount(c, HeadEvents(TextHead(role, text)))
            == NodeCount(c, TextHead(role, text)) + if c == References && role == Mention then 1 else 0
  {
    hide EventsCount;
    match role {
      case Mention => CountOfOne(c, Reference(text));
      case Key => CountOfOne(c, KeyBytes(text.Capacity()));
      case Other => CountOfOne(c, NameBytes(text.Capacity()));
      case Content => CountOfOne(c, LiteralBytes(text.Capacity()));
    }
  }

  lemma NoCount(c: Counter)
    ensures EventsCount(c, []) == 0
  {
  }

  lemma MentionCounts(c: Counter, t: Tree)
    requires IsMention(t.head) && t.parts == []
    ensures EventsCount(c, TreeEvents(t)) == TreeCount(c, t) + if c == References then 1 else 0
  {
    hide EventsCount, TreeEvents, HeadEvents, NodeCount;
    TextEvents(Mention, t.head.text);
    TextCounts(c, Mention, t.head.text);
    assert t == TextTree(Mention, t.head.text);
  }

  /** The events of a tree count for what its nodes count for. */
  lemma {:induction false} TreeCounts(c: Counter, t: Tree)
    requires Uniform(t) && !IsMention(t.head)
    ensures EventsCount(c, TreeEvents(t)) == TreeCount(c, t)
    decreases t, 1
  {
    hide EventsCount, HeadEvents, PartsEvents, PartsCount, NodeCount;
    NodeCounts(c, t);
    if t.head.FunctionHead? {
      CountOfOne(c, Nested(NodeEvents(t)));
    }
  }

  lemma {:induction false} NodeCounts(c: Counter, t: Tree)
    requires Uniform(t) && !IsMention(t.head)
    ensures EventsCount(c, NodeEvents(t)) + (if c == Functions && t.head.FunctionHead? then 1 else 0) == TreeCount(c, t)
    decreases t, 0
  {
    hide EventsCount, HeadEvents, PartsEvents, NodeCount;
    HeadCounts(c, t.head);
    CountOfConcat(c, HeadEvents(t.head), PartsEvents(t.parts));
    if t.head.VarHead? {
      var name := t.parts[0];
      assert FitsIn(t.head, name.head) && Uniform(name);
      assert t.parts == [name] && name.parts == [] by {
        LeafOfText(name);
      }
      MentionCounts(c, name);
      EventsOfOne(name);
      assert [name][1..] == [];
      assert PartsCount(c, [name]) == TreeCount(c, name);
    } else {
      PartsCounts(c, t.head, t.parts);
    }
  }

  lemma LeafOfText(t: Tree)
    requires t.head.TextHead? && Uniform(t)
    ensures t.parts == []
  {
    assert t.parts != [] ==> FitsIn(t.head, t.parts[0].head);
  }

  lemma {:induction false} PartsCounts(c: Counter, parent: Head, parts: seq<Tree>)
    requires forall i :: 0 <= i < |parts| ==> FitsIn(parent, parts[i].head) && Uniform(parts[i])
    requires !parent.VarHead?
    ensures EventsCount(c, PartsEvents(parts)) == PartsCount(c, parts)
    decreases parts
  {
    hide EventsCount, TreeEvents, TreeCount, Uniform;
    if |parts| == 0 {
      NoCount(c);
    } else {
      TreeCounts(c, parts[0]);
      PartsCounts(c, parent, parts[1..]);
      CountOfConcat(c, TreeEvents(parts[0]), PartsEvents(parts[1..]));
    }
  }

  // The walk adds them up.

  lemma ReferenceCounts(c: Counter, s: Shape, name: Name)
    ensures TotalOf(c, OnReference(s, name).totals) == TotalOf(c, s.totals) + EventCount(c, Reference(name))
  {
    hide Probes, ComparedBytes, Remember;
  }

  lemma NextCounts(c: Counter, s: Shape, event: Event)
    requires !event.Nested?
    ensures TotalOf(c, Next(s, event).totals) == TotalOf(c, s.totals) + EventCount(c, event)
  {
    hide OnReference;
    if event.Reference? {
      ReferenceCounts(c, s, event.name);
    }
  }

  lemma {:induction false} FoldCounts(c: Counter, s: Shape, events: Events)
    ensures TotalOf(c, Fold(s, events).totals) == TotalOf(c, s.totals) + EventsCount(c, events)
    decreases events, 0
  {
    hide Step, EventCount, TotalOf;
    if |events| != 0 {
      StepCounts(c, s, events[0]);
      FoldCounts(c, Step(s, events[0]), events[1..]);
    }
  }

  lemma {:induction false} StepCounts(c: Counter, s: Shape, event: Event)
    ensures TotalOf(c, Step(s, event).totals) == TotalOf(c, s.totals) + EventCount(c, event)
    decreases event, 1
  {
    match event {
      case Nested(body) =>
        hide Fold, EventsCount, ScanWork, ScanAllowance, Handles, HeldBytes;
        FoldCounts(c, Enter(s), body);
      case _ =>
        hide Fold, Next, EventCount;
        NextCounts(c, s, event);
    }
  }

  /** Every counter of a whole module; the root function counts as one more. */
  lemma ModuleCounts(c: Counter, lua55: bool, distinct: bool, root: Block)
    ensures TotalOf(c, Finish(Fold(Root(lua55, distinct), BlockEvents(root))).totals)
            == TreeCount(c, BlockTree(root)) + if c == Functions then 1 else 0
  {
    hide Fold, EventsCount, TreeEvents, TreeCount, BlockEvents, BlockTree, ScanWork, ScanAllowance;
    FoldCounts(c, Root(lua55, distinct), BlockEvents(root));
    BlockShape(root);
    BlockIsUniform(root);
    BlockTreeHead(root);
    TreeCounts(c, BlockTree(root));
  }

  lemma BlockTreeHead(root: Block)
    ensures !IsMention(BlockTree(root).head)
  {
    hide StmtVector;
  }
}
