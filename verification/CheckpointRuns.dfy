/** The protocol over whole runs: safe jumps, balanced drivers, exact yields, one owner per root. */
module CheckpointRuns {
  import opened Checked
  import opened ControlStack
  import opened Trampoline
  import opened TrampolineSafety
  import opened PcallRoots

  ghost predicate Inv(m: Machine) {
    Linked(m) && TokensAgree(m) && RootsAgree(m)
  }

  // Steps that do not touch an activation of `lua_pcallk`.

  lemma SamePcalls(m: Machine, after: Machine)
    requires RootsAgree(m) && after.roots == m.roots && PcallFrames(after.stack) == PcallFrames(m.stack)
    ensures RootsAgree(after)
  {
  }

  lemma TopIsNoPcall(stack: Stack)
    requires stack != [] && !Last(stack).Pcall?
    ensures PcallFrames(stack) == PcallFrames(Below(stack))
  {
    assert PcallFrames(Below(stack)) + [] == PcallFrames(Below(stack));
  }

  lemma PushNoPcall(stack: Stack, frame: Frame)
    requires !frame.Pcall?
    ensures PcallFrames(stack + [frame]) == PcallFrames(stack)
  {
    PcallsOfPush(stack, frame);
    assert PcallFrames(stack) + [] == PcallFrames(stack);
  }

  lemma DriverStepsKeep(m: Machine, step: Step)
    requires Inv(m) && Take(m, step).Moved?
    requires step.DoEnter? || step.DoArm? || step.DoInvoke? || step.DoCallbackReturns? || step.DoExit?
    ensures Inv(Take(m, step).next)
  {
    hide RootsAgree;
    var after := Take(m, step).next;
    match step {
      case DoEnter(kind, s, yieldable) =>
        PushDriverKeeps(m, kind, s, yieldable);
        PushNoPcall(m.stack, Driver(kind, NewCheckpoint(m, s, yieldable)));
      case DoArm =>
        ArmKeeps(m);
        TopIsNoPcall(m.stack);
        PushNoPcall(Below(m.stack), WithFlags(Last(m.stack), false, true));
      case DoInvoke =>
        PushQuietFrame(m, Callback);
        PushNoPcall(m.stack, Callback);
      case DoCallbackReturns =>
        PopQuietFrame(m);
        TopIsNoPcall(m.stack);
      case DoExit =>
        ExitKeeps(m);
        TopIsNoPcall(m.stack);
    }
    SamePcalls(m, after);
  }

  lemma ActionStepsKeep(m: Machine, step: Step)
    requires Inv(m) && Take(m, step).Moved?
    requires step.DoBeginStep? || step.DoEndStep? || step.DoBeginAction? || step.DoEndAction?
    ensures Inv(Take(m, step).next)
  {
    hide RootsAgree;
    match step {
      case DoBeginStep =>
        BeginStepKeeps(m);
        var guarded := WithFlags(Last(m.stack), true, Last(m.stack).checkpoint.armed);
        TopIsNoPcall(m.stack);
        PushNoPcall(Below(m.stack), guarded);
        PushNoPcall(ReplaceLast(m.stack, guarded), Action(Active));
      case DoEndStep =>
        EndStepKeeps(m);
        var below := Below(m.stack);
        TopIsNoPcall(m.stack);
        TopIsNoPcall(below);
        PushNoPcall(Below(below), WithFlags(Last(below), false, Last(below).checkpoint.armed));
      case DoBeginAction =>
        PushQuietFrame(m, Action(Entering));
        PushNoPcall(m.stack, Action(Entering));
      case DoEndAction =>
        PopQuietFrame(m);
        TopIsNoPcall(m.stack);
    }
    SamePcalls(m, Take(m, step).next);
  }

  lemma GuardStepsKeep(m: Machine, step: Step)
    requires Inv(m) && Take(m, step).Moved?
    requires step.DoGuardOn? || step.DoGuardOff?
    ensures Inv(Take(m, step).next)
  {
    hide RootsAgree, RustActionEnter, RustActionExit;
    var below := Below(m.stack);
    TopIsNoPcall(m.stack);
    TopIsNoPcall(below);
    if step.DoGuardOn? {
      GuardOnKeeps(m);
      GuardIsGranted(m);
      var guarded := WithFlags(Last(below), true, Last(below).checkpoint.armed);
      PushNoPcall(Below(below), guarded);
      PushFrame(ReplaceLast(below, guarded), Action(Entering));
      PushNoPcall(ReplaceLast(below, guarded), Action(Active));
      assert GuardOn(m).next.stack == ReplaceLast(below, guarded) + [Action(Active)];
    } else {
      GuardOffKeeps(m);
      GuardIsReturned(m);
      var open := WithFlags(Last(below), false, Last(below).checkpoint.armed);
      PushNoPcall(Below(below), open);
      PushFrame(ReplaceLast(below, open), Action(Active));
      PushNoPcall(ReplaceLast(below, open), Action(Leaving));
      assert GuardOff(m).next.stack == ReplaceLast(below, open) + [Action(Leaving)];
    }
    GuardKeepsRoots(m, step);
    SamePcalls(m, Take(m, step).next);
  }

  lemma GuardKeepsRoots(m: Machine, step: Step)
    requires Take(m, step).Moved? && (step.DoGuardOn? || step.DoGuardOff?)
    ensures Take(m, step).next.roots == m.roots
  {
  }

  lemma LandingOnTop(m: Machine)
    requires Inv(m) && TopIsLive(m) && !TopCheckpoint(m).rustActive
    requires CanCall(m.stack) || PcallAt(m.stack, Released)
    ensures Inv(m.(stack := m.stack[..m.top.value + 1], top := m.top))
  {
    hide OneOwner;
    var t := m.top.value;
    LandOnTopKeeps(m, t);
    NothingAbandonedByRaise(m.stack, t);
    LandKeepsRoots(m, t);
  }

  lemma HaltKeeps(m: Machine)
    requires Inv(m)
    ensures Inv(m.(halted := true))
  {
    SameStackShape(m, m.(halted := true));
  }

  lemma RaiseKeeps(m: Machine, s: LuaState, pendingMatches: bool)
    requires Inv(m) && Raise(m, s, pendingMatches).Moved?
    ensures Inv(Raise(m, s, pendingMatches).next)
  {
    hide Inv;
    if TopIsLive(m) && TopCheckpoint(m).state == s && !TopCheckpoint(m).rustActive && pendingMatches {
      LandingOnTop(m);
    } else {
      HaltKeeps(m);
    }
  }

  lemma YieldKeeps(m: Machine, s: LuaState, nresults: int, prepared: bool, pendingMatches: bool)
    requires Inv(m) && Yield(m, s, nresults, prepared, pendingMatches).Moved?
    ensures Inv(Yield(m, s, nresults, prepared, pendingMatches).next)
  {
    hide OneOwner;
    RaiseKeeps(m, s, pendingMatches);
    if m.resumeTop.Some? && IsDriverOf(m.stack[m.resumeTop.value], s) {
      var t := m.resumeTop.value;
      assert m.stack[..|m.stack|] == m.stack;
      ScanMeaning(m.stack, |m.stack|, t, s);
      var scan := ScanTo(m.stack, m.top, t, s);
      if scan.Reached? && !m.stack[t].checkpoint.rustActive {
        YieldLandingKeeps(m, s, t, scan.skipped);
        AbandonedByYieldIsRecorded(m.stack, t, s);
        LandKeepsRoots(m, t);
      }
    }
  }

  lemma PcallStepsKeep(m: Machine, step: Step)
    requires Inv(m) && Take(m, step).Moved?
    requires step.DoPcallBegin? || step.DoPcallRegister? || step.DoPcallDrive? || step.DoPcallResult?
        || step.DoPcallReturn?
    ensures Inv(Take(m, step).next)
  {
    hide OneOwner;
    match step {
      case DoPcallBegin(s) =>
        PushQuietFrame(m, Pcall(s, m.roots.next, false, Preflight));
        BeginKeepsRoots(m, s);
        SameTokens(m.(stack := m.stack + [Pcall(s, m.roots.next, false, Preflight)]), Take(m, step).next);
      case DoPcallRegister(pushed) =>
        var changed := if pushed then Last(m.stack).(registered := true) else Last(m.stack).(step := Released);
        ReplaceQuietFrame(m, changed);
        RegisterKeepsRoots(m, pushed);
        SameTokens(m.(stack := ReplaceLast(m.stack, changed)), Take(m, step).next);
      case DoPcallDrive =>
        var frame := Last(m.stack);
        var running := frame.(step := if frame.step == Preflight then Main else Handler);
        var waiting := m.(stack := ReplaceLast(m.stack, running));
        ReplaceQuietFrame(m, running);
        PushFrame(Below(m.stack), running);
        PushDriverKeeps(waiting, CallDriver, frame.state, running.step == Main && frame.registered);
        DriveKeepsRoots(m);
      case DoPcallResult(handlerPushed) =>
        if (PcallAt(m.stack, Main) || PcallAt(m.stack, Preflight)) && handlerPushed {
          ReplaceQuietFrame(m, Last(m.stack).(step := Settled));
          StepKeepsRoots(m, Settled);
        } else {
          ReplaceQuietFrame(m, Last(m.stack).(step := Released));
          ReleaseKeepsRoots(m);
          SameTokens(m.(stack := ReplaceLast(m.stack, Last(m.stack).(step := Released))), Take(m, step).next);
        }
      case DoPcallReturn =>
        PopQuietFrame(m);
        SplitTop(m);
        DropPcalls(m.roots, PcallFrames(Below(m.stack)), [Last(m.stack)]);
    }
  }

  lemma SameTokens(m: Machine, after: Machine)
    requires Linked(m) && TokensAgree(m)
    requires after.stack == m.stack && after.top == m.top && after.resumeTop == m.resumeTop && after.tokens == m.tokens
    ensures Linked(after) && TokensAgree(after)
  {
    SameStackShape(m, after);
  }

  /** Every enabled step keeps the invariant. */
  lemma StepKeeps(m: Machine, step: Step)
    requires Inv(m) && Take(m, step).Moved?
    ensures Inv(Take(m, step).next)
  {
    hide Inv;
    match step {
      case DoRaise(s, pendingMatches) => RaiseKeeps(m, s, pendingMatches);
      case DoRaiseTerminal(s) =>
        if TopIsLive(m) && TopCheckpoint(m).state == s && !TopCheckpoint(m).rustActive {
          LandingOnTop(m);
        }
      case DoYield(s, nresults, prepared, pendingMatches) => YieldKeeps(m, s, nresults, prepared, pendingMatches);
      case DoConsumeRecord(root) => ConsumeKeeps(m, root);
      case DoPcallBegin(_) => PcallStepsKeep(m, step);
      case DoPcallRegister(_) => PcallStepsKeep(m, step);
      case DoPcallDrive => PcallStepsKeep(m, step);
      case DoPcallResult(_) => PcallStepsKeep(m, step);
      case DoPcallReturn => PcallStepsKeep(m, step);
      case DoBeginStep => ActionStepsKeep(m, step);
      case DoEndStep => ActionStepsKeep(m, step);
      case DoBeginAction => ActionStepsKeep(m, step);
      case DoEndAction => ActionStepsKeep(m, step);
      case DoGuardOn => GuardStepsKeep(m, step);
      case DoGuardOff => GuardStepsKeep(m, step);
      case _ => DriverStepsKeep(m, step);
    }
  }

  lemma ConsumeKeeps(m: Machine, root: nat)
    requires Inv(m) && ConsumeRecord(m, root).Moved?
    ensures Inv(ConsumeRecord(m, root).next)
  {
    hide OneOwner;
    ConsumeKeepsRoots(m, root);
    SameTokens(m, ConsumeRecord(m, root).next);
  }

  lemma StartIsSafe()
    ensures Inv(Start())
  {
    var m := Start();
    assert forall root: nat :: Owners(m.roots, root) == 0;
  }

  // Runs.

  ghost predicate IsRun(run: seq<Machine>, steps: seq<Step>) {
    && |run| == |steps| + 1
    && run[0] == Start()
    && forall i :: 0 <= i < |steps| ==> Take(run[i], steps[i]).Moved? && run[i + 1] == Take(run[i], steps[i]).next
  }

  lemma {:induction false} RunIsSafe(run: seq<Machine>, steps: seq<Step>, k: nat)
    requires IsRun(run, steps) && k < |run|
    ensures Inv(run[k])
  {
    hide Inv, Take;
    if k == 0 {
      StartIsSafe();
    } else {
      RunIsSafe(run, steps, k - 1);
      StepKeeps(run[k - 1], steps[k - 1]);
    }
  }

  /**
   * A jump from `m` to `after` with the given code: it lands on an armed driver, which is then
   * the innermost checkpoint; no guard is on at the target or at a skipped checkpoint, and no
   * Rust frame is among the discarded frames.
   */
  ghost predicate SafeJump(m: Machine, code: nat, t: nat, after: Machine) {
    && t < |m.stack| && m.stack[t].Driver? && m.stack[t].checkpoint.armed
    && (forall i :: t <= i < |m.stack| && m.stack[i].Driver? ==> !m.stack[i].checkpoint.rustActive)
    && (forall i :: t < i < |m.stack| ==> !m.stack[i].Action?)
    && after.stack == m.stack[..t + 1] && after.top == Some(t) == LastDriver(after.stack)
    && (if code == YIELD_CODE then m.resumeTop == Some(t) else m.top == Some(t))
  }

  lemma JumpToTopIsSafe(m: Machine, code: nat)
    requires Linked(m) && TopIsLive(m) && !TopCheckpoint(m).rustActive && code != YIELD_CODE
    requires CanCall(m.stack) || PcallAt(m.stack, Released)
    ensures SafeJump(m, code, m.top.value, Land(m, code, m.top.value).next)
  {
    var t := m.top.value;
    NoActionAbove(m.stack, t);
    DriverUnderFrameIsArmed(m.stack, t);
    CutAtDriver(m.stack, t);
  }

  lemma RaiseIsSafe(m: Machine, s: LuaState, pendingMatches: bool)
    requires Linked(m) && Raise(m, s, pendingMatches).Moved? && Raise(m, s, pendingMatches).jump.Jumped?
    ensures var r := Raise(m, s, pendingMatches); SafeJump(m, r.jump.code, r.jump.target, r.next)
    ensures Raise(m, s, pendingMatches).jump.code == RAISE_CODE
  {
    hide SafeJump, Linked;
    JumpToTopIsSafe(m, RAISE_CODE);
  }

  lemma JumpIsSafe(m: Machine, step: Step)
    requires Inv(m) && Take(m, step).Moved? && Take(m, step).jump.Jumped?
    ensures var r := Take(m, step); SafeJump(m, r.jump.code, r.jump.target, r.next)
  {
    match step {
      case DoRaise(s, pendingMatches) => RaiseIsSafe(m, s, pendingMatches);
      case DoRaiseTerminal(s) =>
        hide SafeJump, RootsAgree, TokensAgree;
        JumpToTopIsSafe(m, TERMINAL_CODE);
      case DoYield(s, nresults, prepared, pendingMatches) =>
        YieldIsSafe(m, s, nresults, prepared, pendingMatches);
      case _ =>
    }
  }

  lemma YieldIsSafe(m: Machine, s: LuaState, nresults: int, prepared: bool, pendingMatches: bool)
    requires Inv(m)
    requires var r := Yield(m, s, nresults, prepared, pendingMatches); r.Moved? && r.jump.Jumped?
    ensures var r := Yield(m, s, nresults, prepared, pendingMatches);
            SafeJump(m, r.jump.code, r.jump.target, r.next)
  {
    hide RootsAgree, TokensAgree, WellFormed, RewindTokens;
    var r := Yield(m, s, nresults, prepared, pendingMatches);
    if r.jump.code == YIELD_CODE && r != Raise(m, s, pendingMatches) {
      var t := m.resumeTop.value;
      assert m.stack[..|m.stack|] == m.stack;
      ScanMeaning(m.stack, |m.stack|, t, s);
      NoActionAbove(m.stack, t);
      DriverUnderFrameIsArmed(m.stack, t);
      CutAtDriver(m.stack, t);
    } else {
      RaiseIsSafe(m, s, pendingMatches);
    }
  }

  /** The innermost checkpoint is one of the state's, with its guard off. */
  predicate JumpTarget(m: Machine, s: LuaState, t: nat) {
    LastDriver(m.stack) == Some(t) && IsDriverOf(m.stack[t], s) && !m.stack[t].checkpoint.rustActive
  }

  /**
   * An error jumps, with code 1 and to the innermost driver, exactly if that driver is the
   * state's, its guard is off and the pending error is the one raised. Otherwise the process
   * halts as it is.
   */
  lemma RaiseIsExact(m: Machine, s: LuaState, pendingMatches: bool)
    requires Inv(m) && CanCall(m.stack) && !m.halted
    ensures var r := Take(m, DoRaise(s, pendingMatches));
            && r.Moved?
            && (r.jump.Jumped? <==> pendingMatches && exists t :: JumpTarget(m, s, t))
            && (forall t :: pendingMatches && JumpTarget(m, s, t) ==>
                  r.jump == Jumped(1, t) && r.next == m.(stack := m.stack[..t + 1], top := Some(t)))
            && (r.jump.NoJump? ==> r.next == m.(halted := true))
  {
    hide WellFormed, TokensAgree, RootsAgree;
    assert m.top.Some? && JumpTarget(m, s, m.top.value) <==> exists t :: JumpTarget(m, s, t);
  }

  /**
   * A terminal exit jumps with code 3 under the same condition, whatever error is pending; it
   * may also come from an activation of `lua_pcallk` that has released its root. Otherwise it
   * returns and nothing has changed.
   */
  lemma TerminalIsExact(m: Machine, s: LuaState)
    requires Inv(m) && (CanCall(m.stack) || PcallAt(m.stack, Released)) && !m.halted
    ensures var r := Take(m, DoRaiseTerminal(s));
            && r.Moved?
            && (r.jump.Jumped? <==> exists t :: JumpTarget(m, s, t))
            && (forall t :: JumpTarget(m, s, t) ==>
                  r.jump == Jumped(3, t) && r.next == m.(stack := m.stack[..t + 1], top := Some(t)))
            && (r.jump.NoJump? ==> r.next == m)
  {
    hide WellFormed, TokensAgree, RootsAgree;
    assert m.top.Some? && JumpTarget(m, s, m.top.value) <==> exists t :: JumpTarget(m, s, t);
  }

  /** In every run, every error, yield and terminal jump is safe. */
  lemma JumpsInRunsAreSafe(run: seq<Machine>, steps: seq<Step>, k: nat)
    requires IsRun(run, steps) && k < |steps| && Take(run[k], steps[k]).jump.Jumped?
    ensures var jump := Take(run[k], steps[k]).jump;
            SafeJump(run[k], jump.code, jump.target, run[k + 1])
  {
    hide Inv, Take, SafeJump;
    RunIsSafe(run, steps, k);
    JumpIsSafe(run[k], steps[k]);
  }

  /** In every run, every root handed out so far has exactly one owner, and no other root has any. */
  lemma RootsInRunsHaveOneOwner(run: seq<Machine>, steps: seq<Step>, k: nat, root: nat)
    requires IsRun(run, steps) && k < |run|
    ensures Owners(run[k].roots, root) == if root < run[k].roots.next then 1 else 0
  {
    hide Take;
    RunIsSafe(run, steps, k);
  }

  // A driver returns with both thread-local pointers as on entry.

  /** The same driver activation: everything but the two flags that change while it lives. */
  predicate SameActivation(a: Frame, b: Frame) {
    a.Driver? ==>
      && b.Driver? && a.kind == b.kind
      && a.checkpoint == b.checkpoint.(rustActive := a.checkpoint.rustActive, armed := a.checkpoint.armed)
  }

  ghost predicate KeepsActivations(m: Machine, after: Machine) {
    forall i :: 0 <= i < |m.stack| && i < |after.stack| ==> SameActivation(m.stack[i], after.stack[i])
  }

  lemma PrefixKeepsActivations(m: Machine, after: Machine)
    requires after.stack <= m.stack || m.stack <= after.stack
    ensures KeepsActivations(m, after)
  {
  }

  lemma FlagsKeepActivations(m: Machine, after: Machine, rustActive: bool, armed: bool, above: Stack)
    requires DriverOnTop(m.stack)
    requires after.stack == ReplaceLast(m.stack, WithFlags(Last(m.stack), rustActive, armed)) + above
    ensures KeepsActivations(m, after)
  {
  }

  lemma FlagsBelowKeepActivations(m: Machine, after: Machine, rustActive: bool, armed: bool, above: Stack)
    requires |m.stack| >= 2 && Last(m.stack).Action? && Last(Below(m.stack)).Driver?
    requires var below := Below(m.stack);
             after.stack == ReplaceLast(below, WithFlags(Last(below), rustActive, armed)) + above
    ensures KeepsActivations(m, after)
  {
  }

  lemma ReplaceKeepsActivations(m: Machine, after: Machine, frame: Frame, above: Stack)
    requires m.stack != [] && !Last(m.stack).Driver? && after.stack == ReplaceLast(m.stack, frame) + above
    ensures KeepsActivations(m, after)
  {
  }

  lemma StepKeepsActivations(m: Machine, step: Step)
    requires Linked(m) && Take(m, step).Moved?
    ensures KeepsActivations(m, Take(m, step).next)
  {
    hide KeepsActivations, Linked, CanCall, ScanTo, RewindTokens, ExitTokens, RustActionEnter, RustActionExit;
    var after := Take(m, step).next;
    match step {
      case DoArm => FlagsKeepActivations(m, after, false, true, []);
      case DoBeginStep =>
        FlagsKeepActivations(m, after, true, Last(m.stack).checkpoint.armed, [Action(Active)]);
      case DoEndStep =>
        FlagsBelowKeepActivations(m, after, false, Last(Below(m.stack)).checkpoint.armed, []);
      case DoGuardOn => GuardOnKeepsActivations(m);
      case DoGuardOff => GuardOffKeepsActivations(m);
      case DoPcallRegister(_) => PcallKeepsActivations(m, step);
      case DoPcallDrive => PcallKeepsActivations(m, step);
      case DoPcallResult(_) => PcallKeepsActivations(m, step);
      case _ => PrefixKeepsActivations(m, after);
    }
  }

  lemma PcallKeepsActivations(m: Machine, step: Step)
    requires step.DoPcallRegister? || step.DoPcallDrive? || step.DoPcallResult?
    requires Take(m, step).Moved?
    ensures KeepsActivations(m, Take(m, step).next)
  {
    hide KeepsActivations;
    var after := Take(m, step).next;
    match step {
      case DoPcallRegister(pushed) =>
        var changed := if pushed then Last(m.stack).(registered := true) else Last(m.stack).(step := Released);
        ReplaceKeepsActivations(m, after, changed, []);
      case DoPcallDrive =>
        var frame := Last(m.stack);
        var running := frame.(step := if frame.step == Preflight then Main else Handler);
        ReplaceKeepsActivations(m, after, running, [Last(after.stack)]);
      case DoPcallResult(_) => ReplaceKeepsActivations(m, after, Last(after.stack), []);
    }
  }

  lemma GuardOnKeepsActivations(m: Machine)
    requires Linked(m) && GuardOn(m).Moved?
    ensures KeepsActivations(m, GuardOn(m).next)
  {
    hide KeepsActivations, RustActionExit, WellFormed;
    GuardIsGranted(m);
    var below := Below(m.stack);
    var guarded := ReplaceLast(below, WithFlags(Last(below), true, Last(below).checkpoint.armed));
    PushFrame(guarded, Action(Entering));
    FlagsBelowKeepActivations(m, GuardOn(m).next, true, Last(below).checkpoint.armed, [Action(Active)]);
  }

  lemma GuardOffKeepsActivations(m: Machine)
    requires Linked(m) && GuardOff(m).Moved?
    ensures KeepsActivations(m, GuardOff(m).next)
  {
    hide KeepsActivations, RustActionEnter, WellFormed;
    GuardIsReturned(m);
    var below := Below(m.stack);
    var open := ReplaceLast(below, WithFlags(Last(below), false, Last(below).checkpoint.armed));
    PushFrame(open, Action(Active));
    FlagsBelowKeepActivations(m, GuardOff(m).next, false, Last(below).checkpoint.armed, [Action(Leaving)]);
  }

  lemma {:induction false} ActivationPersists(run: seq<Machine>, steps: seq<Step>, k: nat, l: nat, i: nat)
    requires IsRun(run, steps) && k <= l < |run|
    requires forall j :: k <= j <= l ==> i < |run[j].stack|
    requires run[k].stack[i].Driver?
    ensures SameActivation(run[k].stack[i], run[l].stack[i])
    decreases l - k
  {
    hide Take, Inv;
    if k < l {
      ActivationPersists(run, steps, k, l - 1, i);
      LinkedInRun(run, steps, l - 1);
      StepKeepsActivations(run[l - 1], steps[l - 1]);
    }
  }

  lemma LinkedInRun(run: seq<Machine>, steps: seq<Step>, k: nat)
    requires IsRun(run, steps) && k < |run|
    ensures Linked(run[k]) && TokensAgree(run[k])
  {
    hide Take;
    RunIsSafe(run, steps, k);
  }

  /** The step has started a driver, by itself or for a protected call or its handler. */
  ghost predicate StartsDriver(m: Machine, after: Machine) {
    |after.stack| == |m.stack| + 1 && Last(after.stack).Driver?
  }

  /**
   * The activation of any driver started by step `k` that leaves by step `l` puts both
   * thread-local pointers back to what they were before `k`, and Rust accepts the token it gives
   * back.
   */
  lemma DriversAreBalanced(run: seq<Machine>, steps: seq<Step>, k: nat, l: nat)
    requires IsRun(run, steps) && k < l < |steps|
    requires StartsDriver(run[k], run[k + 1]) && steps[l].DoExit?
    requires |run[l].stack| == |run[k].stack| + 1
    requires forall j :: k < j <= l ==> |run[k].stack| < |run[j].stack|
    ensures run[l + 1].top == run[k].top && run[l + 1].resumeTop == run[k].resumeTop
    ensures var c := Last(run[l].stack).checkpoint;
            ExitTokens(TokensOf(run[l], c.state), c.token, c.previousToken).Accepted?
  {
    var i := |run[k].stack|;
    LinkedInRun(run, steps, l);
    EnteredLink(run[k], steps[k]);
    assert Take(run[k], steps[k]).Moved? && run[k + 1] == Take(run[k], steps[k]).next;
    assert Take(run[l], steps[l]).Moved? && run[l + 1] == Take(run[l], steps[l]).next;
    LeftLink(run[l], steps[l]);
    hide Take, Linked, TokensAgree;
    ActivationPersists(run, steps, k + 1, l, i);
    assert Last(run[l].stack) == run[l].stack[i];
  }

  lemma EnteredLink(m: Machine, step: Step)
    requires Take(m, step).Moved? && StartsDriver(m, Take(m, step).next)
    ensures step.DoEnter? || step.DoPcallDrive?
    ensures var after := Take(m, step).next;
            && |after.stack| == |m.stack| + 1 && after.stack[|m.stack|].Driver?
            && after.stack[|m.stack|].checkpoint.previous == m.top
            && after.stack[|m.stack|].checkpoint.previousResume == m.resumeTop
  {
  }

  lemma LeftLink(m: Machine, step: Step)
    requires step.DoExit? && Take(m, step).Moved? && Linked(m) && TokensAgree(m)
    ensures m.stack != [] && Last(m.stack).Driver?
    ensures var after := Take(m, step).next; var c := Last(m.stack).checkpoint;
            && after.top == c.previous && after.resumeTop == c.previousResume
            && ExitTokens(TokensOf(m, c.state), c.token, c.previousToken).Accepted?
  {
    ExitKeeps(m);
  }

  // The life of an activation of `lua_pcallk`.

  predicate ActivationOnTop(m: Machine) { m.stack != [] && Last(m.stack).Pcall? && !m.halted }

  /** The function is called first, through a driver that can be yielded across only if a record owns the root. */
  lemma FunctionIsCalled(m: Machine)
    requires ActivationOnTop(m) && Last(m.stack).step == Preflight
    ensures var r := Take(m, DoPcallDrive);
            && r.Moved? && |r.next.stack| == |m.stack| + 1 && r.next.roots == m.roots
            && Last(r.next.stack).Driver? && Last(r.next.stack).kind == CallDriver
            && Last(r.next.stack).checkpoint.state == Last(m.stack).state
            && Last(r.next.stack).checkpoint.yieldable == Last(m.stack).registered
            && Last(Below(r.next.stack)) == Last(m.stack).(step := Main)
  {
  }

  /** An activation whose function failed, with an error that was settled and a handler pushed, calls the handler. */
  lemma HandlerIsCalled(m: Machine)
    requires ActivationOnTop(m) && Last(m.stack).step in {Preflight, Main}
    ensures var r := Take(m, DoPcallResult(true));
            && r.Moved? && r.next.roots == m.roots && Below(r.next.stack) == Below(m.stack)
            && Last(r.next.stack) == Last(m.stack).(step := Settled)
            && var h := Take(r.next, DoPcallDrive);
               && h.Moved? && |h.next.stack| == |m.stack| + 1 && h.next.roots == m.roots
               && Last(h.next.stack).Driver? && Last(h.next.stack).kind == CallDriver
               && Last(h.next.stack).checkpoint.state == Last(m.stack).state
               && !Last(h.next.stack).checkpoint.yieldable
               && Last(Below(h.next.stack)) == Last(m.stack).(step := Handler)
  {
  }

  /**
   * Every other result, and any result of the handler, releases the root, which nobody owned
   * before but this activation, and lets it return.
   */
  lemma ResultReleases(m: Machine, handlerPushed: bool)
    requires Inv(m) && ActivationOnTop(m) && Last(m.stack).step != Released
    requires handlerPushed ==> Last(m.stack).step in {Settled, Handler}
    ensures var r := Take(m, DoPcallResult(handlerPushed));
            var root := Last(m.stack).root;
            && r.Moved? && r.next.roots.released == m.roots.released + multiset{root}
            && r.next.roots.held == m.roots.held - {root} && r.next.roots.recorded == m.roots.recorded - {root}
            && m.roots.released[root] == 0
            && var back := Take(r.next, DoPcallReturn);
               back.Moved? && back.next.stack == Below(m.stack) && back.next.roots == r.next.roots
  {
    hide Linked, TokensAgree;
    TopOwned(m);
  }

  /**
   * Inside a coroutine of its state, a call with a continuation hands its root to a record; if
   * none can be pushed, the root is released and the function is not called.
   */
  lemma RegisteringHandsOver(m: Machine, pushed: bool)
    requires Inv(m) && ActivationOnTop(m) && Last(m.stack).step == Preflight && !Last(m.stack).registered
    ensures var r := Take(m, DoPcallRegister(pushed));
            var frame, root := Last(m.stack), Last(m.stack).root;
            && (r.Moved? <==> m.resumeTop.Some? && IsDriverOf(m.stack[m.resumeTop.value], frame.state))
            && (r.Moved? ==>
                  && root in m.roots.held && r.next.roots.held == m.roots.held - {root}
                  && Below(r.next.stack) == Below(m.stack)
                  && if pushed then
                       && Last(r.next.stack) == frame.(registered := true)
                       && r.next.roots.recorded == m.roots.recorded + {root}
                       && r.next.roots.released == m.roots.released
                     else
                       && Last(r.next.stack) == frame.(step := Released)
                       && r.next.roots.recorded == m.roots.recorded
                       && r.next.roots.released == m.roots.released + multiset{root})
  {
    hide TokensAgree, WellFormed;
    TopOwned(m);
  }

  /** The phases of an activation, in the order in which they can follow each other. */
  function Rank(step: PcallPhase): nat {
    match step
    case Preflight => 0
    case Main => 1
    case Settled => 2
    case Handler => 3
    case Released => 4
  }

  predicate Advances(a: Frame, b: Frame) {
    a.Pcall? ==>
      && b.Pcall? && b.state == a.state && b.root == a.root && Rank(a.step) <= Rank(b.step)
      && (a.registered ==> b.registered) && (b.registered && !a.registered ==> a.step == Preflight)
  }

  ghost predicate ActivationsAdvance(a: Stack, b: Stack) {
    forall i :: 0 <= i < |a| && i < |b| ==> Advances(a[i], b[i])
  }

  lemma PrefixAdvances(a: Stack, b: Stack)
    requires a <= b || b <= a
    ensures ActivationsAdvance(a, b)
  {
  }

  lemma DriverChangeAdvances(a: Stack, b: Stack, i: nat)
    requires i < |a| && i < |b| && a[..i] == b[..i] && a[i].Driver?
    requires forall k :: i < k < |a| ==> !a[k].Pcall?
    ensures ActivationsAdvance(a, b)
  {
    forall k | 0 <= k < |a| && k < |b| ensures Advances(a[k], b[k]) {
      if k < i {
        assert a[..i][k] == b[..i][k];
      }
    }
  }

  lemma TopChangeAdvances(a: Stack, b: Stack)
    requires a != [] && |a| <= |b| && Below(a) == b[..|a| - 1] && Advances(Last(a), b[|a| - 1])
    ensures ActivationsAdvance(a, b)
  {
    forall k | 0 <= k < |a| ensures Advances(a[k], b[k]) {
      if k < |a| - 1 {
        assert Below(a)[k] == b[..|a| - 1][k];
      }
    }
  }

  /** In every step, every activation that stays keeps its root and only moves on in its phases. */
  lemma StepAdvances(m: Machine, step: Step)
    requires Linked(m) && Take(m, step).Moved?
    ensures ActivationsAdvance(m.stack, Take(m, step).next.stack)
  {
    hide ActivationsAdvance, Advances, Linked, CanCall, ScanTo, RewindTokens, ExitTokens, RustActionEnter,
      RustActionExit;
    var a, b := m.stack, Take(m, step).next.stack;
    match step {
      case DoArm => DriverChangeAdvances(a, b, |a| - 1);
      case DoBeginStep => DriverChangeAdvances(a, b, |a| - 1);
      case DoEndStep => DriverChangeAdvances(a, b, |a| - 2);
      case DoGuardOn => GuardAdvances(m, step);
      case DoGuardOff => GuardAdvances(m, step);
      case DoPcallRegister(_) => PcallAdvances(m, step);
      case DoPcallDrive => PcallAdvances(m, step);
      case DoPcallResult(_) => PcallAdvances(m, step);
      case _ => PrefixAdvances(a, b);
    }
  }

  lemma PcallAdvances(m: Machine, step: Step)
    requires Take(m, step).Moved? && (step.DoPcallRegister? || step.DoPcallDrive? || step.DoPcallResult?)
    ensures ActivationsAdvance(m.stack, Take(m, step).next.stack)
  {
    hide ActivationsAdvance;
    TopChangeAdvances(m.stack, Take(m, step).next.stack);
  }

  lemma GuardAdvances(m: Machine, step: Step)
    requires Linked(m) && Take(m, step).Moved? && (step.DoGuardOn? || step.DoGuardOff?)
    ensures ActivationsAdvance(m.stack, Take(m, step).next.stack)
  {
    hide ActivationsAdvance, RustActionEnter, RustActionExit, WellFormed;
    var below := Below(m.stack);
    if step.DoGuardOn? {
      GuardIsGranted(m);
      var guarded := ReplaceLast(below, WithFlags(Last(below), true, Last(below).checkpoint.armed));
      PushFrame(guarded, Action(Entering));
    } else {
      GuardIsReturned(m);
      var open := ReplaceLast(below, WithFlags(Last(below), false, Last(below).checkpoint.armed));
      PushFrame(open, Action(Active));
    }
    DriverChangeAdvances(m.stack, Take(m, step).next.stack, |m.stack| - 2);
  }

  /** In every run: from step `k` to `l` an activation keeps its root and its phases only move on. */
  lemma {:induction false} ActivationsInRunsAdvance(run: seq<Machine>, steps: seq<Step>, k: nat, l: nat, i: nat)
    requires IsRun(run, steps) && k <= l < |run| && i < |run[k].stack| && run[k].stack[i].Pcall?
    requires forall j :: k <= j <= l ==> i < |run[j].stack|
    ensures Advances(run[k].stack[i], run[l].stack[i])
    decreases l - k
  {
    hide Take, Inv;
    if k < l {
      ActivationsInRunsAdvance(run, steps, k, l - 1, i);
      LinkedInRun(run, steps, l - 1);
      StepAdvances(run[l - 1], steps[l - 1]);
      assert Advances(run[l - 1].stack[i], run[l].stack[i]);
    }
  }

  // Yields.

  /** What `yield_boundary` reports for a state, read off the live checkpoints. */
  ghost function Boundary(m: Machine, s: LuaState): int {
    if m.resumeTop.Some? && m.resumeTop.value < |m.stack| && IsDriverOf(m.stack[m.resumeTop.value], s) then
      if Yieldable(m.stack, m.resumeTop.value, |m.stack|, s) then 1 else 0
    else if exists i :: 0 <= i < |m.stack| && IsDriverOf(m.stack[i], s) then 0
    else -1
  }

  ghost predicate NoGuardAbove(m: Machine)
    requires m.resumeTop.Some? && m.resumeTop.value < |m.stack|
  {
    forall i :: m.resumeTop.value <= i < |m.stack| && m.stack[i].Driver? ==> !m.stack[i].checkpoint.rustActive
  }

  /**
   * `lua_yieldk` jumps exactly when the boundary of its state is 1, no Rust action is active
   * from the innermost checkpoint to the resume target, the result count is not negative and
   * the prepare step succeeds. It then lands on that target, which becomes the innermost
   * checkpoint and the owner of the state's current token; every other state keeps its token.
   * Otherwise an error is raised.
   */
  lemma YieldIsExact(m: Machine, s: LuaState, nresults: int, prepared: bool, pendingMatches: bool)
    requires Inv(m) && CanCall(m.stack)
    ensures var r := Yield(m, s, nresults, prepared, pendingMatches);
            && r.Moved?
            && (r.jump.Jumped? && r.jump.code == YIELD_CODE
                <==> Boundary(m, s) == 1 && NoGuardAbove(m) && 0 <= nresults && prepared)
            && (!(r.jump.Jumped? && r.jump.code == YIELD_CODE) ==> r == Raise(m, s, pendingMatches))
            && (r.jump.Jumped? && r.jump.code == YIELD_CODE ==>
                  && m.resumeTop == Some(r.jump.target) && r.next.top == m.resumeTop == r.next.resumeTop
                  && TokensOf(r.next, s).token == m.stack[r.jump.target].checkpoint.token
                  && TokensOf(r.next, s).depth
                     == TokensOf(m, s).depth - DriversBetween(m.stack, r.jump.target, |m.stack|)
                  && forall other :: other != s ==> TokensOf(r.next, other) == TokensOf(m, other))
  {
    hide RootsAgree;
    assert m.stack[..|m.stack|] == m.stack;
    if m.resumeTop.Some? && IsDriverOf(m.stack[m.resumeTop.value], s) {
      var t := m.resumeTop.value;
      ScanMeaning(m.stack, |m.stack|, t, s);
      assert GuardsOff(m.stack, t, |m.stack|) && !m.stack[t].checkpoint.rustActive <==> NoGuardAbove(m);
      var scan := ScanTo(m.stack, m.top, t, s);
      if scan.Reached? && !m.stack[t].checkpoint.rustActive {
        YieldLandingKeeps(m, s, t, scan.skipped);
      }
    }
  }

  /** `yield_boundary`. */
  method YieldBoundary(m: Machine, s: LuaState) returns (r: int)
    requires Linked(m)
    ensures r == Boundary(m, s)
  {
    hide WellFormed, LastDriver, LastResume;
    if m.resumeTop.None? || m.stack[m.resumeTop.value].checkpoint.state != s {
      var found := HasCheckpoint(m, s);
      return if found then 0 else -1;
    }
    var open := CrossesOnlyYieldable(m, s);
    return if open then 1 else 0;
  }

  /** The walk when the current coroutine is another one: is any live checkpoint of this state? */
  method HasCheckpoint(m: Machine, s: LuaState) returns (found: bool)
    requires Linked(m)
    ensures found <==> exists i :: 0 <= i < |m.stack| && IsDriverOf(m.stack[i], s)
  {
    hide WellFormed, LastDriver, LastResume;
    var cursor: Option<nat> := m.top;
    ghost var n := |m.stack|;
    assert m.stack[..n] == m.stack;
    while cursor.Some?
      invariant 0 <= n <= |m.stack| && cursor == LastDriver(m.stack[..n])
      invariant forall i :: n <= i < |m.stack| ==> !IsDriverOf(m.stack[i], s)
      decreases n
    {
      var c := cursor.value;
      NearestDriver(m.stack, n);
      if m.stack[c].checkpoint.state == s { return true; }
      LinkOf(m.stack, c);
      cursor, n := m.stack[c].checkpoint.previous, c;
    }
    NearestDriver(m.stack, n);
    return false;
  }

  /** The walk to the resume target; it stops at the first checkpoint that may not be crossed. */
  method CrossesOnlyYieldable(m: Machine, s: LuaState) returns (open: bool)
    requires Linked(m) && m.resumeTop.Some?
    ensures open <==> Yieldable(m.stack, m.resumeTop.value, |m.stack|, s)
  {
    hide WellFormed, LastDriver, LastResume;
    var target := m.resumeTop.value;
    var cursor: Option<nat> := m.top;
    ghost var n := |m.stack|;
    assert m.stack[..n] == m.stack;
    while cursor.Some? && cursor.value != target
      invariant target < n <= |m.stack| && cursor == LastDriver(m.stack[..n])
      invariant Yieldable(m.stack, n - 1, |m.stack|, s)
      decreases n
    {
      var c := cursor.value;
      NearestDriver(m.stack, n);
      assert target < c;
      if m.stack[c].checkpoint.state != s || !m.stack[c].checkpoint.yieldable { return false; }
      LinkOf(m.stack, c);
      cursor, n := m.stack[c].checkpoint.previous, c;
    }
    NearestDriver(m.stack, n);
    return true;
  }

  lemma NearestDriver(stack: Stack, n: nat)
    requires n <= |stack|
    ensures var c := LastDriver(stack[..n]);
            && (c.Some? ==> c.value < n && stack[c.value].Driver?)
            && forall i :: (if c.Some? then c.value + 1 else 0) <= i < n ==> !stack[i].Driver?
  {
    var c := LastDriver(stack[..n]);
    assert forall i :: 0 <= i < n ==> stack[..n][i] == stack[i];
  }

  /** The loop of `lua_yieldk`: how many checkpoints a yield of `s` skips, or that it may not cross one of them. */
  method SkippedByYield(m: Machine, s: LuaState) returns (scan: Scan)
    requires Linked(m) && m.resumeTop.Some?
    ensures scan == ScanTo(m.stack, m.top, m.resumeTop.value, s)
    ensures scan.Reached? ==> scan.skipped == DriversBetween(m.stack, m.resumeTop.value, |m.stack|)
  {
    ScanMeaning(m.stack, |m.stack|, m.resumeTop.value, s);
    assert m.stack[..|m.stack|] == m.stack;
    hide WellFormed, DriversBetween, Yieldable, GuardsOff;
    var target, skipped := m.resumeTop.value, 0;
    var cursor: Option<nat> := m.top;
    ghost var whole := ScanTo(m.stack, m.top, target, s);
    while cursor.Some? && cursor.value != target
      invariant cursor.Some? ==> cursor.value < |m.stack| && m.stack[cursor.value].Driver?
      invariant match ScanTo(m.stack, cursor, target, s)
                case Reached(n) => whole == Reached(skipped + n)
                case other => whole == other
      decreases if cursor.Some? then cursor.value + 1 else 0
    {
      var c := m.stack[cursor.value].checkpoint;
      LinkOf(m.stack, cursor.value);
      NearestDriver(m.stack, cursor.value);
      if c.state != s || !c.yieldable || c.rustActive { return Blocked; }
      skipped := skipped + 1;
      cursor := c.previous;
    }
    if cursor.None? { return Missed; }
    return Reached(skipped);
  }
}
