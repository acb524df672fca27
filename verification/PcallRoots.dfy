/** Every error-handler root of `lua_pcallk` has exactly one owner, in every run. */
module PcallRoots {
  import opened Checked
  import opened ControlStack
  import opened Trampoline
  import opened TrampolineSafety

  function PcallFrames(stack: Stack): seq<Frame> {
    if |stack| == 0 then []
    else PcallFrames(Below(stack)) + if Last(stack).Pcall? then [Last(stack)] else []
  }

  function Owners(roots: Roots, root: nat): nat {
    (if root in roots.held then 1 else 0) + (if root in roots.recorded then 1 else 0) + roots.released[root]
  }

  predicate Holds(frame: Frame, root: nat) {
    frame.Pcall? && frame.root == root && !frame.registered && frame.step != Released
  }

  predicate Owned(roots: Roots, frame: Frame)
    requires frame.Pcall?
  {
    && frame.root < roots.next
    && if frame.step == Released then frame.root in roots.released
       else if frame.registered then frame.root in roots.recorded
       else frame.root in roots.held
  }

  /**
   * A root is with the live activation that still has to release it, or in one continuation
   * record, or it has been released once.
   */
  ghost predicate OneOwner(roots: Roots, frames: seq<Frame>) {
    && (forall root: nat :: Owners(roots, root) == if root < roots.next then 1 else 0)
    && (forall i :: 0 <= i < |frames| ==> frames[i].Pcall? && Owned(roots, frames[i]))
    && (forall i, j :: 0 <= i < j < |frames| ==> frames[i].root != frames[j].root)
    && (forall root :: root in roots.held ==> exists i :: 0 <= i < |frames| && Holds(frames[i], root))
  }

  ghost predicate RootsAgree(m: Machine) {
    OneOwner(m.roots, PcallFrames(m.stack))
  }

  lemma {:induction false} AllPcalls(stack: Stack)
    ensures forall i :: 0 <= i < |PcallFrames(stack)| ==> PcallFrames(stack)[i].Pcall?
  {
    if stack != [] {
      AllPcalls(Below(stack));
    }
  }

  lemma PcallsOfPush(stack: Stack, frame: Frame)
    ensures PcallFrames(stack + [frame]) == PcallFrames(stack) + if frame.Pcall? then [frame] else []
  {
    PushFrame(stack, frame);
  }

  lemma PcallsOfReplace(stack: Stack, frame: Frame)
    requires stack != []
    ensures PcallFrames(ReplaceLast(stack, frame)) == PcallFrames(Below(stack)) + if frame.Pcall? then [frame] else []
  {
    PcallsOfPush(Below(stack), frame);
  }

  /** Dropping activations that were released, or whose record owns the root, leaks nothing. */
  lemma DropPcalls(roots: Roots, kept: seq<Frame>, dropped: seq<Frame>)
    requires OneOwner(roots, kept + dropped)
    requires forall f :: f in dropped ==> f.Pcall? && (f.step == Released || f.registered)
    ensures OneOwner(roots, kept)
  {
    var all := kept + dropped;
    assert forall i :: 0 <= i < |kept| ==> kept[i] == all[i];
    forall root | root in roots.held ensures exists i :: 0 <= i < |kept| && Holds(kept[i], root) {
      assert forall j :: |kept| <= j < |all| ==> all[j] in dropped && !Holds(all[j], root);
      var i :| 0 <= i < |all| && Holds(all[i], root);
      assert Holds(kept[i], root);
    }
  }

  /** The frames above a cut hold the activations that a jump abandons. */
  lemma {:induction false} CutPcalls(stack: Stack, t: nat) returns (dropped: seq<Frame>)
    requires t < |stack|
    ensures PcallFrames(stack) == PcallFrames(stack[..t + 1]) + dropped
    ensures forall f :: f in dropped ==> f.Pcall? && exists i :: t < i < |stack| && stack[i] == f
  {
    if t + 1 == |stack| {
      assert stack[..t + 1] == stack;
      dropped := [];
    } else {
      assert Below(stack)[..t + 1] == stack[..t + 1];
      var rest := CutPcalls(Below(stack), t);
      assert forall i :: t < i < |Below(stack)| ==> stack[i] == Below(stack)[i];
      assert stack[|stack| - 1] == Last(stack);
      dropped := rest + if Last(stack).Pcall? then [Last(stack)] else [];
    }
  }

  /** Above a waiting activation is the call driver it started, yieldable only if a record owns the root. */
  lemma WaitingPcall(stack: Stack, i: nat)
    requires WellFormed(stack) && i + 1 < |stack| && stack[i].Pcall?
    ensures stack[i + 1].Driver?
    ensures stack[i + 1].checkpoint.yieldable ==> stack[i].registered
  {
    assert Last(stack[..i + 1]) == stack[i];
    FrameAt(stack, i + 1);
  }

  lemma LandKeepsRoots(m: Machine, t: nat)
    requires RootsAgree(m) && t < |m.stack|
    requires forall i :: t < i < |m.stack| && m.stack[i].Pcall? ==> m.stack[i].step == Released || m.stack[i].registered
    ensures OneOwner(m.roots, PcallFrames(m.stack[..t + 1]))
  {
    hide OneOwner;
    var dropped := CutPcalls(m.stack, t);
    DropPcalls(m.roots, PcallFrames(m.stack[..t + 1]), dropped);
  }

  /** A jump to the innermost checkpoint abandons no activation that still owns its root. */
  lemma NothingAbandonedByRaise(stack: Stack, t: nat)
    requires WellFormed(stack) && LastDriver(stack) == Some(t)
    requires CanCall(stack) || PcallAt(stack, Released)
    ensures forall i :: t < i < |stack| && stack[i].Pcall? ==> stack[i].step == Released
  {
    forall i | t < i < |stack| && stack[i].Pcall? ensures stack[i].step == Released {
      if i + 1 < |stack| {
        WaitingPcall(stack, i);
      }
    }
  }

  /** A yield abandons an activation only if a continuation record owns its root. */
  lemma AbandonedByYieldIsRecorded(stack: Stack, t: nat, s: LuaState)
    requires WellFormed(stack) && CanCall(stack) && t < |stack|
    requires Yieldable(stack, t, |stack|, s)
    ensures forall i :: t < i < |stack| && stack[i].Pcall? ==> stack[i].registered
  {
    forall i | t < i < |stack| && stack[i].Pcall? ensures stack[i].registered {
      WaitingPcall(stack, i);
    }
  }

  lemma BeginKeepsRoots(m: Machine, s: LuaState)
    requires RootsAgree(m) && PcallBegin(m, s).Moved?
    ensures RootsAgree(PcallBegin(m, s).next)
  {
    var frame := Pcall(s, m.roots.next, false, Preflight);
    PcallsOfPush(m.stack, frame);
    var old_, new_ := PcallFrames(m.stack), PcallFrames(m.stack) + [frame];
    var roots := PcallBegin(m, s).next.roots;
    assert Owners(m.roots, m.roots.next) == 0;
    forall root: nat ensures Owners(roots, root) == if root < roots.next then 1 else 0 {
      assert Owners(m.roots, root) == if root < m.roots.next then 1 else 0;
    }
    forall root | root in roots.held ensures exists i :: 0 <= i < |new_| && Holds(new_[i], root) {
      if root == m.roots.next {
        assert Holds(new_[|old_|], root);
      } else {
        var i :| 0 <= i < |old_| && Holds(old_[i], root);
        assert Holds(new_[i], root);
      }
    }
  }

  /** Changing the innermost activation and the owner of its root, and nothing else, keeps one owner each. */
  lemma ChangeOwner(roots: Roots, frames: seq<Frame>, frame: Frame, changed: Frame, after: Roots)
    requires frame.Pcall? && changed.Pcall? && OneOwner(roots, frames + [frame]) && changed.root == frame.root
    requires after.next == roots.next && Owned(after, changed)
    requires forall root: nat :: Owners(after, root) == Owners(roots, root)
    requires forall root: nat :: root != frame.root ==>
               && (root in after.held <==> root in roots.held)
               && (root in after.recorded <==> root in roots.recorded)
    requires frame.root in after.held ==> Holds(changed, frame.root)
    ensures OneOwner(after, frames + [changed])
  {
    var before, now := frames + [frame], frames + [changed];
    assert before[|frames|] == frame;
    forall i | 0 <= i < |now| ensures now[i].Pcall? && Owned(after, now[i]) {
      if i < |frames| {
        assert now[i] == before[i];
        assert before[i].root != before[|frames|].root;
        assert Owners(after, now[i].root) == Owners(roots, now[i].root);
      }
    }
    forall i, j | 0 <= i < j < |now| ensures now[i].root != now[j].root {
      assert before[i].root != before[j].root;
    }
    forall root | root in after.held ensures exists i :: 0 <= i < |now| && Holds(now[i], root) {
      if root == frame.root {
        assert Holds(now[|frames|], root);
      } else {
        var i :| 0 <= i < |before| && Holds(before[i], root);
        assert Holds(now[i], root);
      }
    }
  }

  lemma SplitTop(m: Machine)
    requires m.stack != [] && Last(m.stack).Pcall?
    ensures PcallFrames(m.stack) == PcallFrames(Below(m.stack)) + [Last(m.stack)]
  {
  }

  lemma TopOwned(m: Machine)
    requires RootsAgree(m) && m.stack != [] && Last(m.stack).Pcall?
    ensures Owned(m.roots, Last(m.stack)) && Owners(m.roots, Last(m.stack).root) == 1
  {
    var frames := PcallFrames(m.stack);
    SplitTop(m);
    assert frames[|frames| - 1] == Last(m.stack);
  }

  lemma ReleaseKeepsRoots(m: Machine)
    requires RootsAgree(m) && m.stack != [] && Last(m.stack).Pcall? && Last(m.stack).step != Released
    ensures RootsAgree(ReleaseTop(m))
  {
    var frame := Last(m.stack);
    var changed := frame.(step := Released);
    var after := Release(m.roots, frame);
    TopOwned(m);
    SplitTop(m);
    PcallsOfReplace(m.stack, changed);
    hide OneOwner;
    ChangeOwner(m.roots, PcallFrames(Below(m.stack)), frame, changed, after);
  }

  lemma RegisterKeepsRoots(m: Machine, pushed: bool)
    requires RootsAgree(m) && PcallRegister(m, pushed).Moved?
    ensures RootsAgree(PcallRegister(m, pushed).next)
  {
    if pushed {
      var frame := Last(m.stack);
      var changed := frame.(registered := true);
      var after := PcallRegister(m, pushed).next.roots;
      TopOwned(m);
      SplitTop(m);
      PcallsOfReplace(m.stack, changed);
      hide OneOwner;
      ChangeOwner(m.roots, PcallFrames(Below(m.stack)), frame, changed, after);
    } else {
      ReleaseKeepsRoots(m);
    }
  }

  /** Moving an activation that keeps its root to another step. */
  lemma StepKeepsRoots(m: Machine, step: PcallPhase)
    requires RootsAgree(m) && m.stack != [] && Last(m.stack).Pcall?
    requires Last(m.stack).step != Released && step != Released
    ensures OneOwner(m.roots, PcallFrames(ReplaceLast(m.stack, Last(m.stack).(step := step))))
  {
    var frame := Last(m.stack);
    var changed := frame.(step := step);
    TopOwned(m);
    SplitTop(m);
    PcallsOfReplace(m.stack, changed);
    hide OneOwner;
    ChangeOwner(m.roots, PcallFrames(Below(m.stack)), frame, changed, m.roots);
  }

  lemma DriveKeepsRoots(m: Machine)
    requires RootsAgree(m) && PcallDrive(m).Moved?
    ensures RootsAgree(PcallDrive(m).next)
  {
    var frame := Last(m.stack);
    var step := if frame.step == Preflight then Main else Handler;
    StepKeepsRoots(m, step);
    var waiting := m.(stack := ReplaceLast(m.stack, frame.(step := step)));
    var driver := Driver(CallDriver, NewCheckpoint(waiting, frame.state, step == Main && frame.registered));
    PcallsOfPush(waiting.stack, driver);
    assert PcallFrames(waiting.stack + [driver]) == PcallFrames(waiting.stack);
    assert PcallDrive(m).next.stack == waiting.stack + [driver];
  }

  lemma ConsumeKeepsRoots(m: Machine, root: nat)
    requires RootsAgree(m) && ConsumeRecord(m, root).Moved?
    ensures RootsAgree(ConsumeRecord(m, root).next)
  {
    var after := ConsumeRecord(m, root).next.roots;
    var frames := PcallFrames(m.stack);
    assert Owners(m.roots, root) <= 1;
    forall other: nat ensures Owners(after, other) == if other < after.next then 1 else 0 {
      assert Owners(m.roots, other) == if other < m.roots.next then 1 else 0;
    }
    forall i | 0 <= i < |frames| ensures Owned(after, frames[i]) {
      LiveFrame(m.stack, frames[i]);
    }
  }

  lemma {:induction false} LiveFrame(stack: Stack, frame: Frame)
    requires frame in PcallFrames(stack)
    ensures frame.Pcall? && IsLiveRoot(stack, frame.root)
  {
    if Last(stack) == frame && frame.Pcall? {
      assert stack[|stack| - 1] == frame;
    } else {
      LiveFrame(Below(stack), frame);
      var i :| 0 <= i < |Below(stack)| && Below(stack)[i].Pcall? && Below(stack)[i].root == frame.root;
      assert stack[i].Pcall? && stack[i].root == frame.root;
    }
  }
}
