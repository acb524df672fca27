/** What every run of the checkpoint protocol keeps, and what every jump in it satisfies. */
module TrampolineSafety {
  import opened Checked
  import opened ControlStack
  import opened Trampoline

  /** The thread-local pointers list exactly the live checkpoints, innermost first. */
  ghost predicate Linked(m: Machine) {
    && WellFormed(m.stack) && Quiet(m.stack)
    && m.top == LastDriver(m.stack)
    && m.resumeTop == LastResume(m.stack)
  }

  /** Rust's counters agree with the live checkpoints of every state. */
  ghost predicate TokensAgree(m: Machine) {
    forall s: LuaState ::
      var t := TokensOf(m, s);
      t.depth == Depth(m.stack, s) && t.token == InnermostToken(m.stack, s) <= t.last
  }

  // Facts about stacks that differ in one place.

  lemma PushFrame(stack: Stack, frame: Frame)
    ensures Below(stack + [frame]) == stack && Last(stack + [frame]) == frame
  {
  }

  lemma Flags(stack: Stack, rustActive: bool, armed: bool)
    requires DriverOnTop(stack) && WellFormed(stack)
    ensures var changed := ReplaceLast(stack, WithFlags(Last(stack), rustActive, armed));
            && |changed| == |stack| && Below(changed) == Below(stack)
            && Last(changed) == WithFlags(Last(stack), rustActive, armed)
            && WellFormed(changed)
            && LastDriver(changed) == LastDriver(stack)
            && LastResume(changed) == LastResume(stack)
            && (forall s :: Depth(changed, s) == Depth(stack, s))
            && (forall s :: InnermostToken(changed, s) == InnermostToken(stack, s))
  {
    hide CanCall;
    PushFrame(Below(stack), WithFlags(Last(stack), rustActive, armed));
  }

  lemma PushOther(stack: Stack, frame: Frame)
    requires !frame.Driver?
    ensures LastDriver(stack + [frame]) == LastDriver(stack)
    ensures LastResume(stack + [frame]) == LastResume(stack)
    ensures forall s :: Depth(stack + [frame], s) == Depth(stack, s)
    ensures forall s :: InnermostToken(stack + [frame], s) == InnermostToken(stack, s)
  {
    PushFrame(stack, frame);
  }

  // Each step keeps the links and the counters.

  lemma PushDriverKeeps(m: Machine, kind: DriverKind, s: LuaState, yieldable: bool)
    requires Linked(m) && TokensAgree(m)
    requires CanCall(m.stack) || (m.stack != [] && PcallRuns(Last(m.stack), kind, NewCheckpoint(m, s, yieldable)))
    requires (yieldable ==> kind == CallDriver || kind == ResumeDriver) && (kind == ResumeDriver ==> yieldable)
    ensures Linked(PushDriver(m, kind, s, yieldable)) && TokensAgree(PushDriver(m, kind, s, yieldable))
  {
    hide CanCall, PcallRuns;
    var pushed := PushDriver(m, kind, s, yieldable);
    PushFrame(m.stack, Driver(kind, NewCheckpoint(m, s, yieldable)));
    assert TokensOf(m, s).token <= TokensOf(m, s).last;
    forall other: LuaState
      ensures var t := TokensOf(pushed, other);
              t.depth == Depth(pushed.stack, other) && t.token == InnermostToken(pushed.stack, other) <= t.last
    {
      assert TokensOf(m, other).depth == Depth(m.stack, other);
    }
  }

  lemma SameStackShape(m: Machine, after: Machine)
    requires TokensAgree(m) && after.tokens == m.tokens
    requires forall s :: Depth(after.stack, s) == Depth(m.stack, s)
    requires forall s :: InnermostToken(after.stack, s) == InnermostToken(m.stack, s)
    ensures TokensAgree(after)
  {
    forall s: LuaState
      ensures var t := TokensOf(after, s);
              t.depth == Depth(after.stack, s) && t.token == InnermostToken(after.stack, s) <= t.last
    {
      assert TokensOf(m, s) == TokensOf(after, s);
    }
  }

  lemma ArmKeeps(m: Machine)
    requires Linked(m) && TokensAgree(m) && Arm(m).Moved?
    ensures Linked(Arm(m).next) && TokensAgree(Arm(m).next)
  {
    Flags(m.stack, false, true);
    SameStackShape(m, Arm(m).next);
  }

  lemma BeginStepKeeps(m: Machine)
    requires Linked(m) && TokensAgree(m) && BeginStep(m).Moved?
    ensures Linked(BeginStep(m).next) && TokensAgree(BeginStep(m).next)
  {
    var armed := Last(m.stack).checkpoint.armed;
    Flags(m.stack, true, armed);
    var guarded := ReplaceLast(m.stack, WithFlags(Last(m.stack), true, armed));
    PushFrame(guarded, Action(Active));
    PushOther(guarded, Action(Active));
    SameStackShape(m, BeginStep(m).next);
  }

  lemma EndStepKeeps(m: Machine)
    requires Linked(m) && TokensAgree(m) && EndStep(m).Moved?
    ensures Linked(EndStep(m).next) && TokensAgree(EndStep(m).next)
  {
    var below := Below(m.stack);
    PushFrame(below, Action(Active));
    assert m.stack == below + [Action(Active)];
    PushOther(below, Action(Active));
    Flags(below, false, Last(below).checkpoint.armed);
    SameStackShape(m, EndStep(m).next);
  }

  lemma PushQuietFrame(m: Machine, frame: Frame)
    requires Linked(m) && TokensAgree(m) && !frame.Driver? && FrameOk(m.stack, frame)
    ensures var after := m.(stack := m.stack + [frame]); Linked(after) && TokensAgree(after)
  {
    hide CanCall, FrameOk;
    PushFrame(m.stack, frame);
    PushOther(m.stack, frame);
    SameStackShape(m, m.(stack := m.stack + [frame]));
  }

  lemma PopQuietFrame(m: Machine)
    requires Linked(m) && TokensAgree(m) && m.stack != [] && !Last(m.stack).Driver? && Quiet(Below(m.stack))
    ensures var after := m.(stack := Below(m.stack)); Linked(after) && TokensAgree(after)
  {
    hide CanCall, FrameOk;
    assert m.stack == Below(m.stack) + [Last(m.stack)];
    PushOther(Below(m.stack), Last(m.stack));
    SameStackShape(m, m.(stack := Below(m.stack)));
  }

  lemma ReplaceQuietFrame(m: Machine, frame: Frame)
    requires Linked(m) && TokensAgree(m) && m.stack != [] && !Last(m.stack).Driver? && !frame.Driver?
    requires FrameOk(Below(m.stack), frame)
    ensures var after := m.(stack := ReplaceLast(m.stack, frame)); Linked(after) && TokensAgree(after)
  {
    hide CanCall, FrameOk;
    var below := Below(m.stack);
    assert m.stack == below + [Last(m.stack)];
    PushFrame(below, frame);
    PushOther(below, frame);
    PushOther(below, Last(m.stack));
    SameStackShape(m, m.(stack := ReplaceLast(m.stack, frame)));
  }

  /** The bridge is never refused its guard: it runs directly on the innermost checkpoint, whose guard is off. */
  lemma GuardIsGranted(m: Machine)
    requires Linked(m) && ActionOnTop(m.stack, Entering)
    ensures var c := Last(Below(m.stack)).checkpoint;
            RustActionEnter(m, c.state, c.token).0 == ProbeOk
    ensures var below := Below(m.stack);
            RustActionEnter(m, Last(below).checkpoint.state, Last(below).checkpoint.token).1.stack
            == ReplaceLast(below, WithFlags(Last(below), true, Last(below).checkpoint.armed)) + [Action(Entering)]
  {
    hide CanCall;
    assert m.stack == Below(m.stack) + [Last(m.stack)];
    PushOther(Below(m.stack), Last(m.stack));
    assert m.top == Some(|m.stack| - 2);
    var below := Below(m.stack);
    assert RustActionEnter(m, Last(below).checkpoint.state, Last(below).checkpoint.token).1.stack
           == ReplaceLast(below, WithFlags(Last(below), true, Last(below).checkpoint.armed)) + [Action(Entering)];
  }

  /** Nor is it refused when it gives the guard back, because every driver it called has unlinked itself. */
  lemma GuardIsReturned(m: Machine)
    requires Linked(m) && ActionOnTop(m.stack, Active)
    ensures var c := Last(Below(m.stack)).checkpoint;
            RustActionExit(m, c.state, c.token).0 == ProbeOk
    ensures var below := Below(m.stack);
            RustActionExit(m, Last(below).checkpoint.state, Last(below).checkpoint.token).1.stack
            == ReplaceLast(below, WithFlags(Last(below), false, Last(below).checkpoint.armed)) + [Action(Active)]
  {
    hide CanCall;
    assert m.stack == Below(m.stack) + [Last(m.stack)];
    PushOther(Below(m.stack), Last(m.stack));
    assert m.top == Some(|m.stack| - 2);
    var below := Below(m.stack);
    assert RustActionExit(m, Last(below).checkpoint.state, Last(below).checkpoint.token).1.stack
           == ReplaceLast(below, WithFlags(Last(below), false, Last(below).checkpoint.armed)) + [Action(Active)];
  }

  lemma GuardOnKeeps(m: Machine)
    requires Linked(m) && TokensAgree(m) && GuardOn(m).Moved?
    ensures Linked(GuardOn(m).next) && TokensAgree(GuardOn(m).next)
  {
    hide CanCall, RustActionExit;
    GuardIsGranted(m);
    var below := Below(m.stack);
    var after := GuardOn(m).next;
    var guarded := ReplaceLast(below, WithFlags(Last(below), true, Last(below).checkpoint.armed));
    Flags(below, true, Last(below).checkpoint.armed);
    PushFrame(guarded, Action(Entering));
    PushFrame(guarded, Action(Active));
    assert after.stack == guarded + [Action(Active)];
    PushOther(guarded, Action(Active));
    assert m.stack == below + [Last(m.stack)];
    PushOther(below, Last(m.stack));
    SameStackShape(m, after);
  }

  lemma GuardOffKeeps(m: Machine)
    requires Linked(m) && TokensAgree(m) && GuardOff(m).Moved?
    ensures Linked(GuardOff(m).next) && TokensAgree(GuardOff(m).next)
  {
    hide RustActionEnter;
    GuardIsReturned(m);
    var below := Below(m.stack);
    var after := GuardOff(m).next;
    var open := ReplaceLast(below, WithFlags(Last(below), false, Last(below).checkpoint.armed));
    Flags(below, false, Last(below).checkpoint.armed);
    PushFrame(open, Action(Active));
    PushFrame(open, Action(Leaving));
    assert after.stack == open + [Action(Leaving)];
    PushOther(open, Action(Leaving));
    assert m.stack == below + [Last(m.stack)];
    PushOther(below, Last(m.stack));
    SameStackShape(m, after);
  }

  /** Leaving a driver: Rust accepts its token, and both pointers are again what they were on entry. */
  lemma ExitKeeps(m: Machine)
    requires Linked(m) && TokensAgree(m) && ExitDriver(m).Moved?
    ensures var c := Last(m.stack).checkpoint;
            ExitTokens(TokensOf(m, c.state), c.token, c.previousToken).Accepted?
    ensures Linked(ExitDriver(m).next) && TokensAgree(ExitDriver(m).next)
    ensures ExitDriver(m).next.top == Last(m.stack).checkpoint.previous
    ensures ExitDriver(m).next.resumeTop == Last(m.stack).checkpoint.previousResume
  {
    var below := Below(m.stack);
    var c := Last(m.stack).checkpoint;
    var after := ExitDriver(m).next;
    assert TokensOf(m, c.state).depth == Depth(below, c.state) + 1;
    NoTokenWithoutDriver(below, c.state);
    forall s: LuaState
      ensures var t := TokensOf(after, s);
              t.depth == Depth(after.stack, s) && t.token == InnermostToken(after.stack, s) <= t.last
    {
      assert TokensOf(m, s).depth == Depth(m.stack, s);
    }
    hide CanCall, PcallRuns;
    assert Quiet(below);
  }

  lemma {:induction false} NoTokenWithoutDriver(stack: Stack, s: LuaState)
    requires WellFormed(stack)
    ensures Depth(stack, s) == 0 <==> InnermostToken(stack, s) == 0
  {
    hide CanCall, PcallRuns;
    if stack != [] {
      NoTokenWithoutDriver(Below(stack), s);
    }
  }

  // Jumps.

  lemma DriverUnderFrameIsArmed(stack: Stack, t: nat)
    requires WellFormed(stack) && t < |stack| && stack[t].Driver? && !stack[t].checkpoint.rustActive
    requires t + 1 < |stack| || CanCall(stack)
    ensures stack[t].checkpoint.armed
  {
    if t + 1 < |stack| {
      assert Last(stack[..t + 1]) == stack[t];
      FrameAt(stack, t + 1);
    }
  }

  /** Landing on the innermost checkpoint discards no other checkpoint. */
  lemma LandOnTopKeeps(m: Machine, t: nat)
    requires Linked(m) && TokensAgree(m) && m.top == Some(t) && !m.stack[t].checkpoint.rustActive
    ensures var after := m.(stack := m.stack[..t + 1], top := Some(t)); Linked(after) && TokensAgree(after)
  {
    hide CanCall, PcallRuns, FrameOk;
    PrefixWellFormed(m.stack, t + 1);
    LastDriverOfPrefix(m.stack, t + 1);
    SameStackShape(m, m.(stack := m.stack[..t + 1], top := Some(t)));
    assert Last(m.stack[..t + 1]) == m.stack[t];
  }

  /** Every driver strictly between `t` and `n` is a yieldable checkpoint of `s`. */
  ghost predicate Yieldable(stack: Stack, t: nat, n: nat, s: LuaState)
    requires n <= |stack|
  {
    forall i :: t < i < n && stack[i].Driver? ==> stack[i].checkpoint.state == s && stack[i].checkpoint.yieldable
  }

  ghost predicate GuardsOff(stack: Stack, t: nat, n: nat)
    requires n <= |stack|
  {
    forall i :: t < i < n && stack[i].Driver? ==> !stack[i].checkpoint.rustActive
  }

  function DriversBetween(stack: Stack, t: nat, n: nat): int
    requires t < n <= |stack|
  {
    DriverCount(stack[..n]) - DriverCount(stack[..t + 1])
  }

  lemma {:induction false} CountToLastDriver(stack: Stack, n: nat, c: nat)
    requires c < n <= |stack| && stack[c].Driver?
    requires forall i :: c < i < n ==> !stack[i].Driver?
    ensures DriverCount(stack[..n]) == DriverCount(stack[..c + 1]) == DriverCount(stack[..c]) + 1
  {
    if c + 1 == n {
      assert Below(stack[..n]) == stack[..c];
    } else {
      assert Below(stack[..n]) == stack[..n - 1];
      CountToLastDriver(stack, n - 1, c);
    }
  }

  /**
   * The walk along the links reaches the target exactly when every checkpoint above it belongs
   * to the state, is yieldable and has its guard off; it then has counted those checkpoints.
   */
  lemma {:induction false} ScanMeaning(stack: Stack, n: nat, t: nat, s: LuaState)
    requires WellFormed(stack) && t < n <= |stack| && stack[t].Driver?
    ensures var scan := ScanTo(stack, LastDriver(stack[..n]), t, s);
            && (scan.Reached? <==> Yieldable(stack, t, n, s) && GuardsOff(stack, t, n))
            && (scan.Reached? ==> scan.skipped == DriversBetween(stack, t, n))
  {
    hide WellFormed, DriverCount;
    var c := LastDriver(stack[..n]).value;
    assert stack[..n][t] == stack[t];
    assert forall i :: c < i < n ==> !stack[..n][i].Driver?;
    assert stack[..n][c] == stack[c];
    CountToLastDriver(stack, n, c);
    if c != t {
      LinkOf(stack, c);
      var k := stack[c].checkpoint;
      if k.state == s && k.yieldable && !k.rustActive {
        ScanMeaning(stack, c, t, s);
        assert forall i :: t < i < n && stack[i].Driver? ==> i < c || i == c;
      } else {
        assert !(Yieldable(stack, t, n, s) && GuardsOff(stack, t, n));
      }
    }
  }

  lemma LinkOf(stack: Stack, c: nat)
    requires WellFormed(stack) && c < |stack| && stack[c].Driver?
    ensures stack[c].checkpoint.previous == LastDriver(stack[..c])
  {
    hide CanCall, PcallRuns;
    FrameAt(stack, c);
  }

  /** Cutting the checkpoints of one state above a target lowers only that state's count. */
  lemma {:induction false} CutDepth(stack: Stack, t: nat, s: LuaState)
    requires t < |stack| && stack[t].Driver? && stack[t].checkpoint.state == s
    requires forall i :: t < i < |stack| && stack[i].Driver? ==> stack[i].checkpoint.state == s
    ensures Depth(stack, s) == Depth(stack[..t + 1], s) + DriverCount(stack) - DriverCount(stack[..t + 1])
    ensures forall other :: other != s ==>
              && Depth(stack, other) == Depth(stack[..t + 1], other)
              && InnermostToken(stack, other) == InnermostToken(stack[..t + 1], other)
    ensures InnermostToken(stack[..t + 1], s) == stack[t].checkpoint.token
  {
    if t + 1 == |stack| {
      assert stack[..t + 1] == stack;
    } else {
      assert Below(stack)[..t + 1] == stack[..t + 1];
      CutDepth(Below(stack), t, s);
    }
  }

  lemma {:induction false} TokensIncrease(stack: Stack, t: nat, s: LuaState)
    requires WellFormed(stack) && t < |stack| && IsDriverOf(stack[t], s)
    ensures 0 < stack[t].checkpoint.token <= InnermostToken(stack, s)
    ensures InnermostToken(stack, s) == stack[t].checkpoint.token
            || exists i :: t < i < |stack| && IsDriverOf(stack[i], s)
  {
    hide CanCall, PcallRuns;
    if t + 1 < |stack| {
      if IsDriverOf(Last(stack), s) {
        assert IsDriverOf(stack[|stack| - 1], s);
      }
      TokensIncrease(Below(stack), t, s);
      if exists i :: t < i < |Below(stack)| && IsDriverOf(Below(stack)[i], s) {
        var i :| t < i < |Below(stack)| && IsDriverOf(Below(stack)[i], s);
        assert IsDriverOf(stack[i], s);
      }
    }
  }

  /** Landing on the resume target: the skipped tokens of the state go, and nothing else. */
  lemma YieldLandingKeeps(m: Machine, s: LuaState, t: nat, skipped: nat)
    requires Linked(m) && TokensAgree(m) && m.resumeTop == Some(t) && IsDriverOf(m.stack[t], s)
    requires Yieldable(m.stack, t, |m.stack|, s) && !m.stack[t].checkpoint.rustActive
    requires skipped == DriversBetween(m.stack, t, |m.stack|)
    ensures var rewound := RewindTokens(TokensOf(m, s), m.stack[t].checkpoint.token, skipped);
            && rewound.Accepted?
            && rewound.value.token == m.stack[t].checkpoint.token
            && var after := m.(stack := m.stack[..t + 1], top := Some(t), tokens := m.tokens[s := rewound.value]);
               Linked(after) && TokensAgree(after)
  {
    var stack := m.stack;
    assert stack[..|stack|] == stack;
    CutDepth(stack, t, s);
    TokensIncrease(stack, t, s);
    PrefixWellFormed(stack, t + 1);
    CutAtDriver(stack, t);
    assert Last(stack[..t + 1]) == stack[t];
    DepthAtDriver(stack, t, s);
    if skipped == 0 {
      CountAbove(stack, t);
    }
    var rewound := RewindTokens(TokensOf(m, s), stack[t].checkpoint.token, skipped);
    assert TokensOf(m, s).depth == Depth(stack, s);
    var after := m.(stack := stack[..t + 1], top := Some(t), tokens := m.tokens[s := rewound.value]);
    forall other: LuaState
      ensures var u := TokensOf(after, other);
              u.depth == Depth(after.stack, other) && u.token == InnermostToken(after.stack, other) <= u.last
    {
      assert TokensOf(m, other).depth == Depth(stack, other);
    }
  }

  lemma DepthAtDriver(stack: Stack, t: nat, s: LuaState)
    requires t < |stack| && IsDriverOf(stack[t], s)
    ensures 0 < Depth(stack[..t + 1], s)
  {
    assert Last(stack[..t + 1]) == stack[t];
  }

  /** A positive difference of counts is witnessed by a driver, and conversely. */
  lemma {:induction false} CountAbove(stack: Stack, t: nat)
    requires t < |stack|
    ensures DriverCount(stack[..t + 1]) <= DriverCount(stack)
    ensures DriverCount(stack) == DriverCount(stack[..t + 1]) <==> forall i :: t < i < |stack| ==> !stack[i].Driver?
  {
    if t + 1 == |stack| {
      assert stack[..t + 1] == stack;
    } else {
      assert Below(stack)[..t + 1] == stack[..t + 1];
      CountAbove(Below(stack), t);
      assert forall i :: t < i < |Below(stack)| ==> Below(stack)[i] == stack[i];
    }
  }
}
