/** Every step of the machine keeps the continuation records in step with the activations. */
module ContinuationSteps {
  import opened Checked
  import opened ControlStack
  import opened Trampoline
  import opened TrampolineSafety
  import opened PcallRoots
  import opened CheckpointRuns
  import opened Continuations
  import opened ContinuationFrames

  // Every step has one of these shapes.

  lemma FlagsAreAlike(a: Stack, rustActive: bool, armed: bool, above: Stack)
    requires DriverOnTop(a)
    ensures var b := ReplaceLast(a, WithFlags(Last(a), rustActive, armed)) + above; AlikeUpTo(a, b, |a|)
  {
  }

  lemma FlagsBelowAreAlike(a: Stack, rustActive: bool, armed: bool, phase: ActionPhase)
    requires |a| >= 2 && Last(a).Action? && DriverOnTop(Below(a))
    ensures var b := ReplaceLast(Below(a), WithFlags(Last(Below(a)), rustActive, armed));
            AlikeUpTo(a, b, |b|) && AlikeUpTo(a, b + [Action(phase)], |a|)
  {
  }

  lemma GuardsAreAlike(m: Machine, step: Step)
    requires Linked(m) && Take(m, step).Moved? && (step.DoGuardOn? || step.DoGuardOff?)
    ensures var after := Take(m, step).next.stack; |after| == |m.stack| && AlikeUpTo(m.stack, after, |after|)
    ensures Last(m.stack).Action?
  {
    hide RustActionEnter, RustActionExit, WellFormed;
    var below := Below(m.stack);
    if step.DoGuardOn? {
      GuardIsGranted(m);
      var guarded := ReplaceLast(below, WithFlags(Last(below), true, Last(below).checkpoint.armed));
      PushFrame(guarded, Action(Entering));
      FlagsBelowAreAlike(m.stack, true, Last(below).checkpoint.armed, Active);
    } else {
      GuardIsReturned(m);
      var open := ReplaceLast(below, WithFlags(Last(below), false, Last(below).checkpoint.armed));
      PushFrame(open, Action(Active));
      FlagsBelowAreAlike(m.stack, false, Last(below).checkpoint.armed, Leaving);
    }
  }

  lemma FlagShape(m: Machine, step: Step)
    requires Linked(m) && Take(m, step).Moved? && (step.DoArm? || step.DoGuardOn? || step.DoGuardOff?)
    ensures var after := Take(m, step).next.stack; |after| == |m.stack| && AlikeUpTo(m.stack, after, |after|)
    ensures m.stack != [] && (Last(m.stack).Driver? || Last(m.stack).Action?) && Take(m, step).jump.NoJump?
  {
    hide RustActionEnter, RustActionExit, Linked;
    if step.DoArm? {
      FlagsAreAlike(m.stack, false, true, []);
      assert Take(m, step).next.stack + [] == Take(m, step).next.stack;
    } else {
      GuardsAreAlike(m, step);
    }
  }

  /** Steps that leave the length and the records alone. */
  lemma FlagStepsKeep(w: World, step: Step, choice: Choice)
    requires Tracked(w) && Linked(w.m) && Advance(w, step, choice).Some?
    requires step.DoArm? || step.DoGuardOn? || step.DoGuardOff?
    ensures Tracked(Advance(w, step, choice).value)
  {
    hide Take, Linked, Entry, Live, EndsWith, Framed, Running, Alike;
    FlagShape(w.m, step);
    assert LevelAt(w, |w.m.stack| - 1);
    hide Tracked, AlikeUpTo;
    CutKeeps(w, Advance(w, step, choice).value);
  }

  lemma PopShape(m: Machine, step: Step)
    requires Linked(m) && Take(m, step).Moved?
    requires step.DoEndAction? || step.DoCallbackReturns? || step.DoPcallReturn? || step.DoEndStep?
    ensures m.stack != [] && |Take(m, step).next.stack| == |m.stack| - 1
    ensures AlikeUpTo(m.stack, Take(m, step).next.stack, |m.stack| - 1)
    ensures Take(m, step).jump.NoJump?
    ensures forall note, s :: Entry(Last(m.stack), note, s) == []
    ensures step.DoCallbackReturns? || step.DoPcallReturn? ==> Last(m.stack).Callback? || Last(m.stack).Pcall?
    ensures step.DoEndAction? || step.DoEndStep? ==> |m.stack| >= 2 && Last(Below(m.stack)).Driver?
  {
    if step.DoEndStep? {
      FlagsBelowAreAlike(m.stack, false, Last(Below(m.stack)).checkpoint.armed, Active);
    }
  }

  /** Steps that remove the innermost frame, which has no live record. */
  lemma PopStepsKeep(w: World, step: Step, choice: Choice)
    requires Tracked(w) && Linked(w.m) && Advance(w, step, choice).Some?
    requires step.DoEndAction? || step.DoCallbackReturns? || step.DoPcallReturn? || step.DoEndStep?
    requires step.DoEndStep? ==> !choice.starts
    ensures Tracked(Advance(w, step, choice).value)
  {
    hide Take, Linked, Entry, Live, EndsWith, Framed, Running, Alike;
    var n := |w.m.stack|;
    PopShape(w.m, step);
    assert LevelAt(w, n - 1);
    if n >= 2 {
      assert LevelAt(w, n - 2);
    }
    hide Tracked, AlikeUpTo;
    forall i, s: LuaState | n - 1 <= i < n ensures Entry(w.m.stack[i], w.notes[i], s) == [] {
      assert w.m.stack[i] == Last(w.m.stack);
    }
    CutKeeps(w, Advance(w, step, choice).value);
  }

  /** An error or terminal jump goes to the innermost driver, or nowhere. */
  lemma RaiseShape(m: Machine, step: Step)
    requires Linked(m) && Take(m, step).Moved? && !IsYield(Take(m, step))
    requires step.DoRaise? || step.DoRaiseTerminal? || step.DoYield?
    ensures var n := |Take(m, step).next.stack|;
            && n <= |m.stack| && Take(m, step).next.stack == m.stack[..n]
            && (n < |m.stack| ==> 0 < n && m.stack[n - 1].Driver?)
            && forall i, note, s :: n <= i < |m.stack| ==> Entry(m.stack[i], note, s) == []
  {
    hide ScanTo, RewindTokens, WellFormed, Entry;
    var stack := Take(m, step).next.stack;
    if stack != m.stack {
      var t := m.top.value;
      assert stack == m.stack[..t + 1];
      NothingAbandonedByRaise(m.stack, t);
      forall i, note, s | t < i < |m.stack| ensures Entry(m.stack[i], note, s) == [] {
        NoEntry(m.stack[i], note, s);
      }
    } else {
      assert m.stack == m.stack[..|m.stack|];
    }
  }

  lemma NoEntry(frame: Frame, note: Note, s: LuaState)
    requires !frame.Driver? && (frame.Pcall? ==> frame.step == Released)
    ensures Entry(frame, note, s) == []
  {
  }

  lemma RaiseStepsKeep(w: World, step: Step, choice: Choice)
    requires Tracked(w) && Linked(w.m) && Advance(w, step, choice).Some? && !IsYield(Take(w.m, step))
    requires step.DoRaise? || step.DoRaiseTerminal? || step.DoYield?
    ensures Tracked(Advance(w, step, choice).value)
  {
    hide Take, Linked, Entry, Live, EndsWith, Framed, Running;
    var after := Advance(w, step, choice).value;
    var n := |after.m.stack|;
    RaiseShape(w.m, step);
    if n > 0 {
      assert LevelAt(w, n - 1);
      Rises(w, n - 1, |w.m.stack|);
    }
    hide Tracked;
    CutKeeps(w, after);
  }

  lemma ExitShape(m: Machine)
    requires Take(m, DoExit).Moved?
    ensures m.stack != [] && Last(m.stack).Driver? && Take(m, DoExit).next.stack == Below(m.stack)
    ensures Take(m, DoExit).jump.NoJump?
  {
  }

  lemma ExitKeepsRecords(w: World, choice: Choice)
    requires Tracked(w) && Linked(w.m) && Advance(w, DoExit, choice).Some?
    ensures Tracked(Advance(w, DoExit, choice).value)
  {
    hide Take, Linked, Live, EndsWith, Framed, Running, Level;
    var after := Advance(w, DoExit, choice).value;
    ExitShape(w.m);
    if LeavesCallk(w, DoExit) {
      OwnRecordOnTop(w, Last(w.m.stack).checkpoint.state);
    }
    hide Tracked;
    LeaveKeeps(w, after);
  }

  predicate IsEntering(step: Step) {
    step.DoEnter? || step.DoBeginStep? || step.DoBeginAction? || step.DoInvoke? || step.DoPcallBegin?
        || step.DoPcallDrive?
  }

  /** What an entering step puts on the stack. */
  predicate Entered(step: Step, frame: Frame) {
    match step
    case DoEnter(kind, s, yieldable) =>
      frame.Driver? && frame.kind == kind && frame.checkpoint.state == s && frame.checkpoint.yieldable == yieldable
    case DoInvoke => frame.Callback?
    case DoPcallBegin(_) => frame.Pcall? && !frame.registered
    case DoPcallDrive => frame.Driver?
    case _ => frame.Action?
  }

  lemma EnterShape(m: Machine, step: Step)
    requires Take(m, step).Moved? && IsEntering(step)
    ensures var after := Take(m, step).next.stack;
            && |after| == |m.stack| + 1 && AlikeUpTo(m.stack, after, |m.stack|) && Entered(step, Last(after))
    ensures Take(m, step).jump.NoJump?
    ensures step.DoBeginStep? || step.DoBeginAction? || step.DoInvoke? ==> DriverOnTop(m.stack)
    ensures step.DoPcallDrive? ==> m.stack != [] && Last(m.stack).Pcall?
  {
    if step.DoBeginStep? {
      FlagsAreAlike(m.stack, true, Last(m.stack).checkpoint.armed, [Action(Active)]);
    }
  }

  lemma EnterStepsKeep(w: World, step: Step, choice: Choice)
    requires Tracked(w) && Advance(w, step, choice).Some? && IsEntering(step)
    ensures Tracked(Advance(w, step, choice).value)
  {
    hide Take, Live, EndsWith, Framed, Running, Level, Alike;
    var after := Advance(w, step, choice).value;
    EnterShape(w.m, step);
    hide Tracked, AlikeUpTo;
    assert after.m.stack[|w.m.stack|] == Last(after.m.stack);
    EnterKeeps(w, after);
  }

  /** The activation on top, left: an intermediate state of the two steps below. */
  function Without(w: World, records: map<LuaState, seq<Record>>): World
    requires |w.notes| == |w.m.stack| > 0
  {
    w.(m := w.m.(stack := Below(w.m.stack)), notes := w.notes[..|w.notes| - 1], records := records)
  }

  lemma PcallShape(m: Machine, step: Step)
    requires Take(m, step).Moved? && (step.DoPcallRegister? || step.DoPcallResult?)
    ensures m.stack != [] && Last(m.stack).Pcall? && Take(m, step).jump.NoJump?
    ensures var after := Take(m, step).next.stack;
            && |after| == |m.stack| && Below(after) == Below(m.stack) && Last(after).Pcall?
            && Last(after).state == Last(m.stack).state && Last(after).root == Last(m.stack).root
            && (step.DoPcallRegister? ==>
                  !Last(m.stack).registered && (Last(after).registered <==> step.pushed)
                  && (step.pushed ==> Last(after).step != Released))
            && (step.DoPcallResult? ==>
                  Last(after).registered == Last(m.stack).registered && Last(m.stack).step != Released)
  {
  }

  lemma TopPcallSteady(w: World)
    requires Tracked(w) && w.m.stack != [] && Last(w.m.stack).Pcall?
    ensures w.notes[|w.notes| - 1].depth == w.depth
  {
    assert LevelAt(w, |w.notes| - 1);
  }

  /** No activation stands on a resume driver that has not started. */
  lemma TopPcallBase(w: World)
    requires Tracked(w) && w.m.stack != [] && Last(w.m.stack).Pcall?
    ensures var n := |w.m.stack| - 1;
            0 < n && w.m.stack[n - 1].Driver? && w.m.stack[n - 1].kind == ResumeDriver ==> w.notes[n - 1].started
  {
    hide Level, LiveOnTop, Alone, Covered, Marked;
    assert Last(w.m.stack) == w.m.stack[|w.m.stack| - 1];
  }

  /** What the activation on top has lost and gained. */
  function Kept(w: World): map<LuaState, seq<Record>>
    requires w.m.stack != [] && |w.notes| == |w.m.stack| && Last(w.m.stack).Pcall?
  {
    var s := Last(w.m.stack).state;
    if Entry(Last(w.m.stack), w.notes[|w.notes| - 1], s) != [] && RecordsOf(w, s) != [] then Pop(w, s) else w.records
  }

  lemma PcallLeaves(w: World)
    requires Tracked(w) && w.m.stack != [] && Last(w.m.stack).Pcall?
    ensures Leaves(w, Without(w, Kept(w)))
  {
    hide Live, EndsWith, Framed, Level;
    TopPcallSteady(w);
    var frame, note := Last(w.m.stack), w.notes[|w.notes| - 1];
    if Entry(frame, note, frame.state) != [] {
      OwnRecordOnTop(w, frame.state);
    }
  }

  lemma PcallRecords(w: World, step: Step, choice: Choice)
    requires Tracked(w) && Advance(w, step, choice).Some? && (step.DoPcallRegister? || step.DoPcallResult?)
    requires w.m.stack != [] && Last(w.m.stack).Pcall? && |Advance(w, step, choice).value.m.stack| == |w.m.stack|
    ensures var after := Advance(w, step, choice).value;
            forall s: LuaState ::
              RecordsOf(after, s)
              == RecordsOf(Without(w, Kept(w)), s) + Entry(Last(after.m.stack), w.notes[|w.notes| - 1], s)
  {
    hide Take, Live, EndsWith, Framed, Level;
    PcallShape(w.m, step);
    TopPcallSteady(w);
    var frame, note := Last(w.m.stack), w.notes[|w.notes| - 1];
    if Entry(frame, note, frame.state) != [] {
      OwnRecordOnTop(w, frame.state);
    }
  }

  /** A frame with a live record is in a running coroutine. */
  lemma EntryRuns(w: World, s: LuaState)
    requires Tracked(w) && w.m.stack != [] && Entry(Last(w.m.stack), w.notes[|w.notes| - 1], s) != []
    ensures Running(w, s)
  {
    hide Level, LiveOnTop, Alone, Barred, Marked, Entry;
    assert Last(w.m.stack) == w.m.stack[|w.m.stack| - 1];
    var i :| 0 <= i < |w.m.stack| - 1 && Started(w.m.stack[i], w.notes[i], s);
  }

  lemma PcallEntryRuns(w: World, step: Step, choice: Choice, s: LuaState)
    requires Tracked(w) && Advance(w, step, choice).Some? && (step.DoPcallRegister? || step.DoPcallResult?)
    requires w.m.stack != [] && Last(w.m.stack).Pcall? && |Advance(w, step, choice).value.m.stack| == |w.m.stack|
    requires Entry(Last(Advance(w, step, choice).value.m.stack), w.notes[|w.notes| - 1], s) != []
    ensures Running(Without(w, Kept(w)), s)
  {
    hide Take, Live, EndsWith, Framed, Level, LiveOnTop;
    PcallShape(w.m, step);
    if step.DoPcallResult? {
      EntryRuns(w, s);
    }
    assert Running(w, s);
    var i :| 0 <= i < |w.m.stack| && Started(w.m.stack[i], w.notes[i], s);
    var left := Without(w, Kept(w));
    assert Started(left.m.stack[i], left.notes[i], s);
  }

  lemma PcallStepsKeepRecords(w: World, step: Step, choice: Choice)
    requires Tracked(w) && Advance(w, step, choice).Some? && (step.DoPcallRegister? || step.DoPcallResult?)
    ensures Tracked(Advance(w, step, choice).value)
  {
    hide Take, Live, EndsWith, Framed, Level, LiveOnTop, Alike, Running;
    var after := Advance(w, step, choice).value;
    PcallShape(w.m, step);
    TopPcallSteady(w);
    TopPcallBase(w);
    PcallLeaves(w);
    var left := Without(w, Kept(w));
    LeaveKeeps(w, left);
    PcallRecords(w, step, choice);
    forall s: LuaState | Entry(Last(after.m.stack), w.notes[|w.notes| - 1], s) != [] ensures Running(left, s) {
      PcallEntryRuns(w, step, choice, s);
    }
    hide Tracked, Kept, NextRecords, Entry, AlikeUpTo, Releases, RecordsOf;
    var n := |w.notes| - 1;
    assert after.notes[..n] == left.notes && after.notes[n] == w.notes[n];
    assert after.m.stack[n] == Last(after.m.stack);
    assert left.m.stack <= after.m.stack;
    AlikePrefix(left.m.stack, after.m.stack);
    EnterKeeps(left, after);
  }

  lemma AlikePrefix(a: Stack, b: Stack)
    requires a <= b
    ensures AlikeUpTo(a, b, |a|)
  {
  }

  /** The world just before a coroutine starts: its step has ended. */
  lemma StartStepKeeps(w: World, choice: Choice)
    requires Tracked(w) && Linked(w.m) && Advance(w, DoEndStep, choice).Some? && choice.starts
    ensures Tracked(Advance(w, DoEndStep, choice).value)
  {
    hide Take, Linked, Entry, Live, EndsWith, Framed, Level, LiveOnTop;
    var after := Advance(w, DoEndStep, choice).value;
    PopShape(w.m, DoEndStep);
    var n := |w.m.stack| - 1;
    var ended := after.(notes := w.notes[..n]);
    EndedKeeps(w, choice, ended);
    assert Alike(w.m.stack[n - 1], ended.m.stack[n - 1]) && Last(ended.m.stack) == ended.m.stack[n - 1];
    var s := Last(ended.m.stack).checkpoint.state;
    forall i | 0 <= i < n ensures !Started(ended.m.stack[i], ended.notes[i], s) {
      AlikeEntries(w.m.stack[i], ended.m.stack[i], w.notes[i], s);
      assert !Started(w.m.stack[i], w.notes[i], s);
    }
    StartKeeps(ended, after);
  }

  lemma EndedKeeps(w: World, choice: Choice, ended: World)
    requires Tracked(w) && Linked(w.m) && Advance(w, DoEndStep, choice).Some? && choice.starts
    requires w.m.stack != []
    requires ended == Advance(w, DoEndStep, choice).value.(notes := w.notes[..|w.notes| - 1])
    ensures Tracked(ended)
  {
    hide Take, Linked, Entry, Live, EndsWith, Framed, Running, Alike;
    var n := |w.m.stack|;
    PopShape(w.m, DoEndStep);
    assert LevelAt(w, n - 2);
    forall i, s: LuaState | n - 1 <= i < n ensures Entry(w.m.stack[i], w.notes[i], s) == [] {
      assert w.m.stack[i] == Last(w.m.stack);
    }
    hide Tracked, AlikeUpTo;
    CutKeeps(w, ended);
  }

  lemma YieldShape(m: Machine, step: Step)
    requires Inv(m) && IsYield(Take(m, step))
    ensures step.DoYield? && step.prepared && m.resumeTop.Some? && Take(m, step).jump.target == m.resumeTop.value
    ensures var t := m.resumeTop.value;
            && t < |m.stack| && IsDriverOf(m.stack[t], step.s) && m.stack[t].kind == ResumeDriver
            && Take(m, step).next.stack == m.stack[..t + 1]
            && Yieldable(m.stack, t, |m.stack|, step.s) && !m.stack[t].checkpoint.rustActive
            && forall i :: t < i < |m.stack| ==> !(m.stack[i].Driver? && m.stack[i].kind == ResumeDriver)
  {
    hide TokensAgree, RootsAgree, ScanTo, RewindTokens, WellFormed;
    match step {
      case DoYield(s, nresults, prepared, pendingMatches) =>
        YieldIsExact(m, s, nresults, prepared, pendingMatches);
      case _ =>
    }
  }

  /** A callback that may yield runs over a started resume driver. */
  lemma YieldTargetStarted(stack: Stack, notes: seq<Note>, t: nat, s: LuaState)
    requires |notes| == |stack| && Barred(stack, notes) && WellFormed(stack) && OnCallback(stack)
    requires t < |stack| && IsDriverOf(stack[t], s) && stack[t].kind == ResumeDriver
    requires Yieldable(stack, t, |stack|, s) && !stack[t].checkpoint.rustActive
    requires forall i :: t < i < |stack| ==> !(stack[i].Driver? && stack[i].kind == ResumeDriver)
    ensures t + 1 < |stack| && Started(stack[t], notes[t], s)
  {
    hide WellFormed;
    assert Last(stack) == stack[|stack| - 1];
    FrameAt(stack, t + 1);
    assert Last(stack[..t + 1]) == stack[t];
  }

  /** The frames that a yield abandons belong to its coroutine. */
  lemma YieldAbandonsOwn(stack: Stack, notes: seq<Note>, t: nat, s: LuaState, i: nat, u: LuaState)
    requires |notes| == |stack| && WellFormed(stack) && OnCallback(stack) && t < i < |stack| && u != s
    requires Yieldable(stack, t, |stack|, s)
    ensures Entry(stack[i], notes[i], u) == []
  {
    hide WellFormed;
    if stack[i].Pcall? {
      assert i + 1 < |stack|;
      FrameAt(stack, i + 1);
      assert Last(stack[..i + 1]) == stack[i];
    }
  }

  lemma YieldStepKeeps(w: World, step: Step, choice: Choice)
    requires Tracked(w) && Inv(w.m) && Advance(w, step, choice).Some? && IsYield(Take(w.m, step))
    ensures step.DoYield? && Tracked(Advance(w, step, choice).value)
    ensures Yields(w, Advance(w, step, choice).value, step.s)
  {
    hide Take, Entry, Live, EndsWith, Alone, Covered, Marked, Level, Inv, Yieldable, WellFormed;
    var after := Advance(w, step, choice).value;
    YieldShape(w.m, step);
    var t := w.m.resumeTop.value;
    LinkedWell(w.m);
    YieldTargetStarted(w.m.stack, w.notes, t, step.s);
    forall i, u: LuaState | t < i < |w.m.stack| && u != step.s ensures Entry(w.m.stack[i], w.notes[i], u) == [] {
      YieldAbandonsOwn(w.m.stack, w.notes, t, step.s, i, u);
    }
    hide Tracked, Started, Barred;
    YieldKeepsFrames(w, after, step.s);
  }

  lemma LinkedWell(m: Machine)
    requires Inv(m)
    ensures WellFormed(m.stack) && Linked(m)
  {
  }

  // Records and the roots that they own.

  predicate Owns(w: World, s: LuaState, i: nat, root: nat) {
    i < |RecordsOf(w, s)| && RecordsOf(w, s)[i].owner == Some(root)
  }

  /** A root is recorded exactly if it is in one record. */
  ghost predicate Placed(w: World) {
    && (forall s: LuaState, i: nat, root: nat :: Owns(w, s, i, root) ==> root in w.m.roots.recorded)
    && (forall root :: root in w.m.roots.recorded ==> exists s: LuaState, i: nat :: Owns(w, s, i, root))
    && (forall s: LuaState, u: LuaState, i: nat, j: nat, root: nat ::
          Owns(w, s, i, root) && Owns(w, u, j, root) ==> s == u && i == j)
  }

  function OwnerSet(record: Record): set<nat> {
    if record.owner.Some? then {record.owner.value} else {}
  }

  ghost predicate Adds(w: World, after: World, s: LuaState, record: Record) {
    && (forall u: LuaState :: RecordsOf(after, u) == RecordsOf(w, u) + if u == s then [record] else [])
    && after.m.roots.recorded == w.m.roots.recorded + OwnerSet(record)
    && OwnerSet(record) !! w.m.roots.recorded
  }

  lemma AddKeepsPlaced(w: World, after: World, s: LuaState, record: Record)
    requires Placed(w) && Adds(w, after, s, record)
    ensures Placed(after)
  {
    var n := |RecordsOf(w, s)|;
    forall u: LuaState, i: nat, root: nat
      ensures Owns(after, u, i, root) <==> Owns(w, u, i, root) || (u == s && i == n && record.owner == Some(root))
    {
      assert RecordsOf(after, u) == RecordsOf(w, u) + if u == s then [record] else [];
    }
    assert record.owner.Some? ==> Owns(after, s, n, record.owner.value);
    hide Owns;
  }

  lemma RemoveKeepsPlaced(w: World, after: World, s: LuaState, record: Record)
    requires Placed(w) && Adds(after, w, s, record)
    ensures Placed(after)
  {
    var n := |RecordsOf(after, s)|;
    forall u: LuaState, i: nat, root: nat
      ensures Owns(w, u, i, root) <==> Owns(after, u, i, root) || (u == s && i == n && record.owner == Some(root))
    {
      assert RecordsOf(w, u) == RecordsOf(after, u) + if u == s then [record] else [];
    }
    assert record.owner.Some? ==> Owns(w, s, n, record.owner.value);
    forall u: LuaState, i: nat, root: nat | Owns(after, u, i, root) ensures root in after.m.roots.recorded {
      assert Owns(w, u, i, root);
    }
    forall root | root in after.m.roots.recorded ensures exists u: LuaState, i: nat :: Owns(after, u, i, root) {
      var u: LuaState, i: nat :| Owns(w, u, i, root);
      assert Owns(after, u, i, root);
    }
  }

  lemma SameKeepsPlaced(w: World, after: World)
    requires Placed(w) && after.records == w.records && after.m.roots.recorded == w.m.roots.recorded
    ensures Placed(after)
  {
    assert forall s: LuaState, i: nat, root: nat :: Owns(after, s, i, root) == Owns(w, s, i, root);
  }

  lemma RecordedStays(m: Machine, step: Step)
    requires Take(m, step).Moved? && !step.DoConsumeRecord? && !(step.DoPcallRegister? && step.pushed)
    requires !Releases(m, step, Take(m, step))
    ensures Take(m, step).next.roots.recorded == m.roots.recorded
  {
    hide ScanTo, RewindTokens, ExitTokens, CanCall;
  }

  lemma RecordedChanges(m: Machine, step: Step)
    requires RootsAgree(m) && Take(m, step).Moved?
    requires (step.DoPcallRegister? && step.pushed) || Releases(m, step, Take(m, step))
    ensures m.stack != [] && Last(m.stack).Pcall?
    ensures var root := Last(m.stack).root;
            var recorded := Take(m, step).next.roots.recorded;
            if step.DoPcallRegister? then root !in m.roots.recorded && recorded == m.roots.recorded + {root}
            else root in m.roots.recorded && recorded == m.roots.recorded - {root}
  {
    TopOwned(m);
  }

  /** A step that pushes or takes off a record moves its root along. */
  lemma StepKeepsPlaced(w: World, step: Step, choice: Choice)
    requires Tracked(w) && Placed(w) && Inv(w.m) && Advance(w, step, choice).Some?
    ensures Placed(Advance(w, step, choice).value)
  {
    hide Tracked, Placed, Inv, Take, Entry, Live, Running;
    var after := Advance(w, step, choice).value;
    var r := Take(w.m, step);
    if (step.DoPcallRegister? && step.pushed) || Releases(w.m, step, r) {
      PcallKeepsPlaced(w, step, choice);
    } else {
      RecordedStays(w.m, step);
      if step.DoEnter? && step.kind == CallDriver && step.yieldable {
        AddKeepsPlaced(w, after, step.s, Record(None, w.depth));
      } else if LeavesCallk(w, step) {
        CallkKeepsPlaced(w, choice);
      } else {
        SameKeepsPlaced(w, after);
      }
    }
  }

  lemma CallkKeepsPlaced(w: World, choice: Choice)
    requires Tracked(w) && Placed(w) && Advance(w, DoExit, choice).Some? && LeavesCallk(w, DoExit)
    ensures Placed(Advance(w, DoExit, choice).value)
  {
    hide Tracked, Placed, Take, Live, Running;
    var s := Last(w.m.stack).checkpoint.state;
    OwnRecordOnTop(w, s);
    RecordedStays(w.m, DoExit);
    RemoveKeepsPlaced(w, Advance(w, DoExit, choice).value, s, LastRecord(w, s));
  }

  lemma PcallKeepsPlaced(w: World, step: Step, choice: Choice)
    requires Tracked(w) && Placed(w) && Inv(w.m) && Advance(w, step, choice).Some?
    requires (step.DoPcallRegister? && step.pushed) || Releases(w.m, step, Take(w.m, step))
    ensures Placed(Advance(w, step, choice).value)
  {
    hide Tracked, Placed, Take, Live, Running, Linked, TokensAgree, RootsAgree;
    var after := Advance(w, step, choice).value;
    RecordedChanges(w.m, step);
    PcallShape(w.m, step);
    TopPcallSteady(w);
    var s := Last(w.m.stack).state;
    if step.DoPcallRegister? {
      AddKeepsPlaced(w, after, s, Record(Some(Last(w.m.stack).root), w.depth));
    } else {
      OwnRecordOnTop(w, s);
      RemoveKeepsPlaced(w, after, s, LastRecord(w, s));
    }
  }

  ghost predicate Sound(w: World) {
    Inv(w.m) && Tracked(w) && Placed(w)
  }

  /** A record that may be discarded is not that of a live activation. */
  lemma DiscardedIsAbandoned(w: World, s: LuaState)
    requires Tracked(w) && MayDiscard(w, s)
    ensures Live(w.m.stack, w.notes, s) == []
  {
    hide Level, LiveOnTop, Barred, Marked, Live, Matches;
    var n := |w.m.stack|;
    forall i | 0 <= i < n ensures Entry(w.m.stack[i], w.notes[i], s) == [] {
      if Last(w.m.stack).kind == ResumeDriver {
        assert Started(w.m.stack[n - 1], w.notes[n - 1], s);
      }
    }
    NoLive(w.m.stack, w.notes, s);
  }

  lemma {:induction false} EntryIsLive(stack: Stack, notes: seq<Note>, i: nat, s: LuaState)
    requires i < |stack| == |notes| && Entry(stack[i], notes[i], s) != []
    ensures Entry(stack[i], notes[i], s)[0] in Live(stack, notes, s)
  {
    hide Entry;
    var n := |stack| - 1;
    if i < n {
      EntryIsLive(Below(stack), notes[..n], i, s);
    }
  }

  lemma {:induction false} PcallIsListed(stack: Stack, i: nat)
    requires i < |stack| && stack[i].Pcall?
    ensures stack[i] in PcallFrames(stack)
  {
    if i < |stack| - 1 {
      PcallIsListed(Below(stack), i);
    }
  }

  lemma LiveIsOwned(w: World, i: nat)
    requires Tracked(w) && i < |w.m.stack| && w.m.stack[i].Pcall?
    requires w.m.stack[i].registered && w.m.stack[i].step != Released
    ensures exists j: nat :: Owns(w, w.m.stack[i].state, j, w.m.stack[i].root)
    ensures Live(w.m.stack, w.notes, w.m.stack[i].state) != []
  {
    hide Level, Framed;
    var s := w.m.stack[i].state;
    EntryIsLive(w.m.stack, w.notes, i, s);
    hide Live;
    var all, live := RecordsOf(w, s), Live(w.m.stack, w.notes, s);
    assert EndsWith(all, live);
    var k :| 0 <= k < |live| && live[k] == Record(Some(w.m.stack[i].root), w.notes[i].depth);
    assert all[|all| - |live|..][k] == all[|all| - |live| + k];
    assert Owns(w, s, |all| - |live| + k, w.m.stack[i].root);
  }

  lemma UnregisteredIsNotRecorded(m: Machine, i: nat)
    requires Inv(m) && i < |m.stack| && m.stack[i].Pcall?
    requires !(m.stack[i].registered && m.stack[i].step != Released)
    ensures m.stack[i].root !in m.roots.recorded
  {
    hide Linked, TokensAgree;
    PcallIsListed(m.stack, i);
    assert Owned(m.roots, m.stack[i]);
    assert Owners(m.roots, m.stack[i].root) <= 1;
  }

  lemma AbandonedIsNotLive(w: World, s: LuaState, root: nat)
    requires Sound(w) && MayDiscard(w, s) && LastRecord(w, s).owner == Some(root)
    ensures root in w.m.roots.recorded && !IsLiveRoot(w.m.stack, root)
  {
    assert Owns(w, s, |RecordsOf(w, s)| - 1, root);
    hide Tracked, Inv, MayDiscard, Live;
    DiscardedIsAbandoned(w, s);
    forall i | 0 <= i < |w.m.stack| && w.m.stack[i].Pcall? ensures w.m.stack[i].root != root {
      var frame := w.m.stack[i];
      if frame.registered && frame.step != Released {
        LiveIsOwned(w, i);
      } else {
        UnregisteredIsNotRecorded(w.m, i);
      }
    }
  }

  /** Discarding the record of a coroutine always succeeds, and releases the root of an abandoned activation. */
  lemma DiscardKeeps(w: World, s: LuaState)
    requires Sound(w) && MayDiscard(w, s) && !w.m.halted
    ensures Discard(w, s).Some? && Sound(Discard(w, s).value)
  {
    hide Tracked, Placed, Inv, IsLiveRoot;
    var owner := LastRecord(w, s).owner;
    if owner.Some? {
      AbandonedIsNotLive(w, s, owner.value);
      ConsumeKeeps(w.m, owner.value);
    }
    DiscardTracks(w, s);
    DiscardPlaces(w, s);
  }

  lemma DiscardPlaces(w: World, s: LuaState)
    requires Placed(w) && Discard(w, s).Some?
    ensures Placed(Discard(w, s).value)
  {
    assert RecordsOf(w, s) != [];
    hide Placed, IsLiveRoot, MayDiscard;
    RemoveKeepsPlaced(w, Discard(w, s).value, s, LastRecord(w, s));
  }

  lemma DiscardTracks(w: World, s: LuaState)
    requires Tracked(w) && MayDiscard(w, s) && Discard(w, s).Some?
    ensures Tracked(Discard(w, s).value)
  {
    DiscardedIsAbandoned(w, s);
    hide Level, Framed, Live, MayDiscard;
    var after := Discard(w, s).value;
    assert Level(after) by {
      SameLevel(w, after);
    }
    forall u: LuaState ensures EndsWith(RecordsOf(after, u), Live(after.m.stack, after.notes, u)) {
      assert EndsWith(RecordsOf(w, u), Live(w.m.stack, w.notes, u));
    }
  }

  lemma SameLevel(w: World, after: World)
    requires |w.notes| == |w.m.stack| && Level(w)
    requires after.m.stack == w.m.stack && after.notes == w.notes && after.depth == w.depth
    ensures Level(after)
  {
    forall i | 0 <= i < |after.m.stack| ensures LevelAt(after, i) {
      assert LevelAt(w, i);
    }
  }

  // Every move keeps the records in step with the activations.

  lemma StepTracks(w: World, step: Step, choice: Choice)
    requires Tracked(w) && Inv(w.m) && Advance(w, step, choice).Some?
    ensures Tracked(Advance(w, step, choice).value)
  {
    hide Tracked, Inv, Take, Advance;
    LinkedWell(w.m);
    if IsYield(Take(w.m, step)) {
      YieldStepKeeps(w, step, choice);
    } else {
      match step {
        case DoArm => FlagStepsKeep(w, step, choice);
        case DoGuardOn => FlagStepsKeep(w, step, choice);
        case DoGuardOff => FlagStepsKeep(w, step, choice);
        case DoEndStep => if choice.starts { StartStepKeeps(w, choice); } else { PopStepsKeep(w, step, choice); }
        case DoEndAction => PopStepsKeep(w, step, choice);
        case DoCallbackReturns => PopStepsKeep(w, step, choice);
        case DoPcallReturn => PopStepsKeep(w, step, choice);
        case DoExit => ExitKeepsRecords(w, choice);
        case DoRaise(_, _) => RaiseStepsKeep(w, step, choice);
        case DoRaiseTerminal(_) => RaiseStepsKeep(w, step, choice);
        case DoYield(_, _, _, _) => RaiseStepsKeep(w, step, choice);
        case DoPcallRegister(_) => PcallStepsKeepRecords(w, step, choice);
        case DoPcallResult(_) => PcallStepsKeepRecords(w, step, choice);
        case DoConsumeRecord(_) => NoConsumeStep(w, step, choice);
        case _ => EnterStepsKeep(w, step, choice);
      }
    }
  }

  lemma NoConsumeStep(w: World, step: Step, choice: Choice)
    requires step.DoConsumeRecord?
    ensures Advance(w, step, choice) == None
  {
  }

  lemma MoveKeeps(w: World, move: Move)
    requires Sound(w) && Next(w, move).Some?
    ensures Sound(Next(w, move).value)
  {
    hide Inv, Tracked, Placed, Take, MayTake, MayDiscard;
    match move {
      case Goes(step, choice) =>
        StepTracks(w, step, choice);
        StepKeepsPlaced(w, step, choice);
        StepKeeps(w.m, step);
      case Discards(s) => DiscardKeeps(w, s);
    }
  }

  lemma BeginIsSound()
    ensures Sound(Begin())
  {
    StartIsSafe();
  }

  ghost predicate IsHistory(worlds: seq<World>, moves: seq<Move>) {
    && |worlds| == |moves| + 1 && worlds[0] == Begin()
    && forall i :: 0 <= i < |moves| ==> Next(worlds[i], moves[i]) == Some(worlds[i + 1])
  }

  lemma {:induction false} HistoryIsSound(worlds: seq<World>, moves: seq<Move>, k: nat)
    requires IsHistory(worlds, moves) && k < |worlds|
    ensures Sound(worlds[k])
  {
    hide Sound, Next;
    if k == 0 {
      BeginIsSound();
    } else {
      var i := k - 1;
      HistoryIsSound(worlds, moves, i);
      assert Next(worlds[i], moves[i]) == Some(worlds[i + 1]);
      MoveKeeps(worlds[i], moves[i]);
    }
  }
}
