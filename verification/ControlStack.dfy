/**
 * The control stack of one thread that runs C and Rust frames, and the facts about it that the
 * checkpoint protocol relies on.
 *
 * A frame is identified by its position. Drivers are the C functions that own a checkpoint (a
 * `jmp_buf`, a link to the previous checkpoint, the identity of a Lua state, and two flags);
 * callbacks are C functions, hooks and continuations that a driver calls; actions are Rust
 * frames that a driver runs; `Pcall` is an activation of `lua_pcallk`.
 */
module ControlStack {
  import opened Checked

  type LuaState = nat

  datatype DriverKind =
    CallDriver | OperationDriver | GcDriver | ResetDriver | CloseDriver | ResumeDriver | ProtectDriver

  datatype Checkpoint = Checkpoint(
    state: LuaState,
    token: nat,
    previousToken: nat,
    previous: Option<nat>,
    previousResume: Option<nat>,
    rustActive: bool,
    yieldable: bool,
    armed: bool)

  /** Around its guarded part, the bridge of a protected action runs with the guard off. */
  datatype ActionPhase = Entering | Active | Leaving

  datatype PcallPhase = Preflight | Main | Settled | Handler | Released

  datatype Frame =
    | Driver(kind: DriverKind, checkpoint: Checkpoint)
    | Callback
    | Action(phase: ActionPhase)
    | Pcall(state: LuaState, root: nat, registered: bool, step: PcallPhase)

  type Stack = seq<Frame>

  function Last(stack: Stack): Frame
    requires stack != []
  {
    stack[|stack| - 1]
  }

  function Below(stack: Stack): Stack
    requires stack != []
  {
    stack[..|stack| - 1]
  }

  function LastDriver(stack: Stack): (r: Option<nat>)
    ensures r.Some? ==> r.value < |stack| && stack[r.value].Driver?
    ensures forall i :: (if r.Some? then r.value + 1 else 0) <= i < |stack| ==> !stack[i].Driver?
  {
    if |stack| == 0 then None
    else if Last(stack).Driver? then Some(|stack| - 1)
    else LastDriver(Below(stack))
  }

  function LastResume(stack: Stack): (r: Option<nat>)
    ensures r.Some? ==> r.value < |stack| && stack[r.value].Driver? && stack[r.value].kind == ResumeDriver
    ensures forall i :: (if r.Some? then r.value + 1 else 0) <= i < |stack| ==>
              !(stack[i].Driver? && stack[i].kind == ResumeDriver)
  {
    if |stack| == 0 then None
    else if Last(stack).Driver? && Last(stack).kind == ResumeDriver then Some(|stack| - 1)
    else LastResume(Below(stack))
  }

  predicate IsDriverOf(frame: Frame, s: LuaState) {
    frame.Driver? && frame.checkpoint.state == s
  }

  /** How many live checkpoints belong to a state, and the token of the innermost one (0 if none). */
  function Depth(stack: Stack, s: LuaState): nat {
    if |stack| == 0 then 0 else Depth(Below(stack), s) + if IsDriverOf(Last(stack), s) then 1 else 0
  }

  function InnermostToken(stack: Stack, s: LuaState): nat {
    if |stack| == 0 then 0
    else if IsDriverOf(Last(stack), s) then Last(stack).checkpoint.token
    else InnermostToken(Below(stack), s)
  }

  function DriverCount(stack: Stack): nat {
    if |stack| == 0 then 0 else DriverCount(Below(stack)) + if Last(stack).Driver? then 1 else 0
  }

  /** No driver at the end of the stack is waiting for a Rust frame. */
  predicate Quiet(stack: Stack) {
    stack == [] || !Last(stack).Driver? || !Last(stack).checkpoint.rustActive
  }

  /** The innermost frame can call the C API: the Rust bridge outside its guard and `lua_pcallk` itself do not. */
  predicate CanCall(stack: Stack) {
    stack == [] || match Last(stack)
      case Driver(_, c) => c.armed && !c.rustActive
      case Callback => true
      case Action(phase) => phase == Active
      case Pcall(_, _, _, _) => false
  }

  /** `lua_pcallk` runs its function, or its handler, through a call driver; only the former may be yieldable. */
  predicate PcallRuns(caller: Frame, kind: DriverKind, c: Checkpoint) {
    && caller.Pcall? && (caller.step == Main || caller.step == Handler)
    && kind == CallDriver && c.state == caller.state
    && c.yieldable == (caller.step == Main && caller.registered)
  }

  predicate FrameOk(below: Stack, frame: Frame) {
    match frame
    case Driver(kind, c) =>
      && (CanCall(below) || (below != [] && PcallRuns(Last(below), kind, c)))
      && c.previous == LastDriver(below)
      && c.previousResume == LastResume(below)
      && c.previousToken == InnermostToken(below, c.state) < c.token
      && (c.yieldable ==> kind == CallDriver || kind == ResumeDriver)
      && (kind == ResumeDriver ==> c.yieldable)
    case Callback => below != [] && Last(below).Driver? && CanCall(below)
    case Action(phase) =>
      && below != [] && Last(below).Driver?
      && (phase == Active <==> Last(below).checkpoint.rustActive)
      && (phase != Active ==> Last(below).kind == ProtectDriver)
      && (Last(below).kind == ProtectDriver ==> Last(below).checkpoint.armed)
    case Pcall(_, _, _, _) => CanCall(below)
  }

  predicate WellFormed(stack: Stack) {
    stack == [] || (WellFormed(Below(stack)) && FrameOk(Below(stack), Last(stack)))
  }

  lemma {:induction false} PrefixWellFormed(stack: Stack, n: nat)
    requires WellFormed(stack) && n <= |stack|
    ensures WellFormed(stack[..n])
  {
    if n == |stack| {
      assert stack[..n] == stack;
    } else {
      assert Below(stack)[..n] == stack[..n];
      PrefixWellFormed(Below(stack), n);
    }
  }

  lemma {:induction false} FrameAt(stack: Stack, i: nat)
    requires WellFormed(stack) && i < |stack|
    ensures WellFormed(stack[..i]) && FrameOk(stack[..i], stack[i])
  {
    PrefixWellFormed(stack, i + 1);
    assert Below(stack[..i + 1]) == stack[..i];
  }

  lemma {:induction false} LastDriverOfPrefix(stack: Stack, n: nat)
    requires n <= |stack|
    requires forall i :: n <= i < |stack| ==> !stack[i].Driver?
    ensures LastDriver(stack[..n]) == LastDriver(stack)
    ensures LastResume(stack[..n]) == LastResume(stack)
    ensures forall s :: Depth(stack[..n], s) == Depth(stack, s)
    ensures forall s :: InnermostToken(stack[..n], s) == InnermostToken(stack, s)
  {
    if n == |stack| {
      assert stack[..n] == stack;
    } else {
      assert Below(stack)[..n] == stack[..n];
      LastDriverOfPrefix(Below(stack), n);
    }
  }

  /** The innermost driver of a stack cut just above a driver is that driver. */
  lemma CutAtDriver(stack: Stack, t: nat)
    requires t < |stack| && stack[t].Driver?
    ensures LastDriver(stack[..t + 1]) == Some(t)
  {
    assert Last(stack[..t + 1]) == stack[t];
  }

  /** A Rust frame sits on a driver whose guard is on, unless it is the bridge just before or after its guarded part. */
  lemma {:induction false} ActionIsGuarded(stack: Stack, i: nat)
    requires WellFormed(stack) && i < |stack| && stack[i].Action?
    ensures 0 < i && stack[i - 1].Driver?
    ensures stack[i - 1].checkpoint.rustActive || (i == |stack| - 1 && stack[i].phase != Active)
  {
    FrameAt(stack, i);
    assert Last(stack[..i]) == stack[i - 1];
    if i + 1 < |stack| {
      assert Last(stack[..i + 1]) == stack[i];
      FrameAt(stack, i + 1);
    }
  }

  /**
   * When the guards of a driver and of all drivers above it are off, and the running frame is not
   * the bridge outside its guarded part, every frame above that driver is a C frame.
   */
  lemma {:induction false} NoActionAbove(stack: Stack, t: nat)
    requires WellFormed(stack) && t < |stack| && stack[t].Driver?
    requires Last(stack).Action? ==> Last(stack).phase == Active
    requires forall i :: t <= i < |stack| && stack[i].Driver? ==> !stack[i].checkpoint.rustActive
    ensures forall i :: t < i < |stack| ==> !stack[i].Action?
  {
    forall i | t < i < |stack| ensures !stack[i].Action? {
      if stack[i].Action? {
        ActionIsGuarded(stack, i);
      }
    }
  }
}
