/**
 * The checkpoint protocol between C and Rust as a step machine.
 *
 * The machine holds the control stack, the two thread-local pointers, the per-state checkpoint
 * counters that Rust keeps, and the owners of the error-handler roots of `lua_pcallk`. Functions
 * outside the protocol return arbitrary results, which are parameters of the steps. A Rust
 * dispatch that runs with the guard off is atomic, because it never calls back into C.
 */
module Trampoline {
  import opened Checked
  import opened ControlStack

  /**
   * What Rust remembers per Lua state: how many checkpoints are open, the innermost token, the
   * last token given out.
   */
  datatype TokenState = TokenState(depth: nat, token: nat, last: nat)

  /** Where each error-handler root is: with a live `lua_pcallk`, in a continuation record, or released. */
  datatype Roots = Roots(next: nat, held: set<nat>, recorded: set<nat>, released: multiset<nat>)

  datatype Machine = Machine(
    stack: Stack,
    top: Option<nat>,
    resumeTop: Option<nat>,
    tokens: map<LuaState, TokenState>,
    roots: Roots,
    halted: bool)

  function Start(): Machine {
    Machine([], None, None, map[], Roots(0, {}, {}, multiset{}), false)
  }

  function TokensOf(m: Machine, s: LuaState): TokenState {
    if s in m.tokens then m.tokens[s] else TokenState(0, 0, 0)
  }

  datatype Jump = NoJump | Jumped(code: nat, target: nat)

  const RAISE_CODE: nat := 1
  const YIELD_CODE: nat := 2
  const TERMINAL_CODE: nat := 3

  datatype Result = Disabled | Moved(next: Machine, jump: Jump)

  // Checkpoint bookkeeping on the Rust side.

  /** `enter_checkpoint`, when its allocation succeeds. */
  function EnterTokens(t: TokenState): TokenState {
    TokenState(t.depth + 1, t.last + 1, t.last + 1)
  }

  datatype Verdict = Accepted(value: TokenState) | Stale

  /** `exit_checkpoint`. */
  function ExitTokens(t: TokenState, token: nat, previous: nat): Verdict {
    if t.depth == 0 || t.token != token then Stale
    else if (t.depth == 1 && previous != 0) || (t.depth > 1 && previous == 0) then Stale
    else Accepted(t.(depth := t.depth - 1, token := previous))
  }

  /** `rewind_checkpoint_a5`. */
  function RewindTokens(t: TokenState, token: nat, skipped: nat): Verdict {
    if token == 0 || t.depth <= skipped then Stale
    else if token > t.token || (skipped == 0 && token != t.token) then Stale
    else Accepted(t.(depth := t.depth - skipped, token := token))
  }

  // The guard around Rust actions.

  datatype Probe = ProbeOk | NoCheckpoint | WrongState | WrongToken | Busy | NotActive

  function TopCheckpoint(m: Machine): Checkpoint
    requires m.top.Some? && m.top.value < |m.stack| && m.stack[m.top.value].Driver?
  {
    m.stack[m.top.value].checkpoint
  }

  predicate TopIsLive(m: Machine) {
    m.top.Some? && m.top.value < |m.stack| && m.stack[m.top.value].Driver?
  }

  /** `trampoline_probe`: the identity must be that of the innermost checkpoint. */
  function ProbeTop(m: Machine, s: LuaState, token: nat): Probe {
    if !TopIsLive(m) then NoCheckpoint
    else if TopCheckpoint(m).state != s then WrongState
    else if TopCheckpoint(m).token != token then WrongToken
    else ProbeOk
  }

  function SetTopGuard(m: Machine, on: bool): Machine
    requires TopIsLive(m)
  {
    var i := m.top.value;
    m.(stack := m.stack[i := m.stack[i].(checkpoint := m.stack[i].checkpoint.(rustActive := on))])
  }

  function RustActionEnter(m: Machine, s: LuaState, token: nat): (Probe, Machine) {
    var probe := ProbeTop(m, s, token);
    if probe != ProbeOk then (probe, m)
    else if TopCheckpoint(m).rustActive then (Busy, m)
    else (ProbeOk, SetTopGuard(m, true))
  }

  function RustActionExit(m: Machine, s: LuaState, token: nat): (Probe, Machine) {
    var probe := ProbeTop(m, s, token);
    if probe != ProbeOk then (probe, m)
    else if !TopCheckpoint(m).rustActive then (NotActive, m)
    else (ProbeOk, SetTopGuard(m, false))
  }

  // Drivers.

  function NewCheckpoint(m: Machine, s: LuaState, yieldable: bool): Checkpoint {
    var t := TokensOf(m, s);
    Checkpoint(s, t.last + 1, t.token, m.top, m.resumeTop, false, yieldable, false)
  }

  /** The prologue every driver shares: take a token, link the checkpoint, publish it. */
  function PushDriver(m: Machine, kind: DriverKind, s: LuaState, yieldable: bool): Machine {
    var i := |m.stack|;
    m.(stack := m.stack + [Driver(kind, NewCheckpoint(m, s, yieldable))],
       top := Some(i),
       resumeTop := if kind == ResumeDriver then Some(i) else m.resumeTop,
       tokens := m.tokens[s := EnterTokens(TokensOf(m, s))])
  }

  function EnterDriver(m: Machine, kind: DriverKind, s: LuaState, yieldable: bool): Result {
    if CanCall(m.stack)
       && (yieldable ==> kind == CallDriver || kind == ResumeDriver) && (kind == ResumeDriver ==> yieldable)
    then Moved(PushDriver(m, kind, s, yieldable), NoJump)
    else Disabled
  }

  predicate DriverOnTop(stack: Stack) {
    stack != [] && Last(stack).Driver?
  }

  function ReplaceLast(stack: Stack, frame: Frame): Stack
    requires stack != []
  {
    Below(stack) + [frame]
  }

  function WithFlags(frame: Frame, rustActive: bool, armed: bool): Frame
    requires frame.Driver?
  {
    frame.(checkpoint := frame.checkpoint.(rustActive := rustActive, armed := armed))
  }

  /** `setjmp`. */
  function Arm(m: Machine): Result {
    if DriverOnTop(m.stack) && Quiet(m.stack) then
      Moved(m.(stack := ReplaceLast(m.stack, WithFlags(Last(m.stack), false, true))), NoJump)
    else Disabled
  }

  /** A driver sets its guard and runs one Rust step. */
  function BeginStep(m: Machine): Result {
    if DriverOnTop(m.stack) && Quiet(m.stack) && Last(m.stack).kind != ProtectDriver then
      var guarded := WithFlags(Last(m.stack), true, Last(m.stack).checkpoint.armed);
      Moved(m.(stack := ReplaceLast(m.stack, guarded) + [Action(Active)]), NoJump)
    else Disabled
  }

  predicate ActionOnTop(stack: Stack, phase: ActionPhase) {
    |stack| >= 2 && Last(stack) == Action(phase) && Last(Below(stack)).Driver?
  }

  function EndStep(m: Machine): Result {
    if ActionOnTop(m.stack, Active) && Last(Below(m.stack)).kind != ProtectDriver then
      var driver := Last(Below(m.stack));
      Moved(m.(stack := ReplaceLast(Below(m.stack), WithFlags(driver, false, driver.checkpoint.armed))), NoJump)
    else Disabled
  }

  /** `protect` calls the bridge of its action; the bridge asks for the guard itself. */
  function BeginAction(m: Machine): Result {
    if DriverOnTop(m.stack) && CanCall(m.stack) && Last(m.stack).kind == ProtectDriver then
      Moved(m.(stack := m.stack + [Action(Entering)]), NoJump)
    else Disabled
  }

  /** A refused guard makes the bridge return without running the action. */
  function GuardOn(m: Machine): Result {
    if ActionOnTop(m.stack, Entering) then
      var c := Last(Below(m.stack)).checkpoint;
      var (probe, guarded) := RustActionEnter(m, c.state, c.token);
      var phase := if probe == ProbeOk then Active else Leaving;
      Moved(guarded.(stack := ReplaceLast(guarded.stack, Action(phase))), NoJump)
    else Disabled
  }

  function GuardOff(m: Machine): Result {
    if ActionOnTop(m.stack, Active) && Last(Below(m.stack)).kind == ProtectDriver then
      var c := Last(Below(m.stack)).checkpoint;
      var (probe, open) := RustActionExit(m, c.state, c.token);
      Moved(open.(stack := ReplaceLast(open.stack, Action(Leaving))), NoJump)
    else Disabled
  }

  function EndAction(m: Machine): Result {
    if ActionOnTop(m.stack, Leaving) then Moved(m.(stack := Below(m.stack)), NoJump) else Disabled
  }

  /** A driver calls a C function, hook or continuation. */
  function Invoke(m: Machine): Result {
    if DriverOnTop(m.stack) && CanCall(m.stack) then Moved(m.(stack := m.stack + [Callback]), NoJump) else Disabled
  }

  function CallbackReturns(m: Machine): Result {
    if m.stack != [] && Last(m.stack) == Callback then Moved(m.(stack := Below(m.stack)), NoJump) else Disabled
  }

  /** The common epilogue: unlink the checkpoint and give its token back. */
  function ExitDriver(m: Machine): Result {
    if DriverOnTop(m.stack) && Quiet(m.stack) then
      var driver := Last(m.stack);
      var c := driver.checkpoint;
      var exited := ExitTokens(TokensOf(m, c.state), c.token, c.previousToken);
      Moved(m.(stack := Below(m.stack),
               top := c.previous,
               resumeTop := if driver.kind == ResumeDriver then c.previousResume else m.resumeTop,
               tokens := if exited.Accepted? then m.tokens[c.state := exited.value] else m.tokens), NoJump)
    else Disabled
  }

  // Jumps.

  function Land(m: Machine, code: nat, target: nat): Result
    requires target < |m.stack|
  {
    Moved(m.(stack := m.stack[..target + 1], top := Some(target)), Jumped(code, target))
  }

  /** Every raising entry point: jump to the innermost checkpoint of the state, or abort the process. */
  function Raise(m: Machine, s: LuaState, pendingMatches: bool): Result {
    if !CanCall(m.stack) then Disabled
    else if TopIsLive(m) && TopCheckpoint(m).state == s && !TopCheckpoint(m).rustActive && pendingMatches then
      Land(m, RAISE_CODE, m.top.value)
    else Moved(m.(halted := true), NoJump)
  }

  /** `raise_terminal`: returns to its caller when it may not jump. */
  function RaiseTerminal(m: Machine, s: LuaState): Result {
    if !(CanCall(m.stack) || (m.stack != [] && Last(m.stack).Pcall? && Last(m.stack).step == Released)) then Disabled
    else if TopIsLive(m) && TopCheckpoint(m).state == s && !TopCheckpoint(m).rustActive then
      Land(m, TERMINAL_CODE, m.top.value)
    else Moved(m, NoJump)
  }

  /** The walk of `lua_yieldk` from the innermost checkpoint to the resume target. */
  datatype Scan = Reached(skipped: nat) | Blocked | Missed

  function ScanTo(stack: Stack, cursor: Option<nat>, target: nat, s: LuaState): Scan
    decreases if cursor.Some? then cursor.value + 1 else 0
  {
    if cursor.None? then Missed
    else if cursor.value == target then Reached(0)
    else if cursor.value >= |stack| || !stack[cursor.value].Driver? then Missed
    else
      var c := stack[cursor.value].checkpoint;
      if c.state != s || !c.yieldable || c.rustActive then Blocked
      else if c.previous.Some? && c.previous.value >= cursor.value then Missed
      else
        match ScanTo(stack, c.previous, target, s)
        case Reached(n) => Reached(n + 1)
        case other => other
  }

  function Yield(m: Machine, s: LuaState, nresults: int, prepared: bool, pendingMatches: bool): Result {
    if !CanCall(m.stack) then Disabled
    else if !(m.resumeTop.Some? && m.resumeTop.value < |m.stack| && IsDriverOf(m.stack[m.resumeTop.value], s)) then
      Raise(m, s, pendingMatches)
    else
      var target := m.resumeTop.value;
      match ScanTo(m.stack, m.top, target, s)
      case Reached(skipped) =>
        if m.stack[target].checkpoint.rustActive || nresults < 0 || !prepared then Raise(m, s, pendingMatches)
        else (
          var rewound := RewindTokens(TokensOf(m, s), m.stack[target].checkpoint.token, skipped);
          if rewound.Stale? then Moved(m.(halted := true), NoJump)
          else Land(m.(tokens := m.tokens[s := rewound.value]), YIELD_CODE, target))
      case _ => Raise(m, s, pendingMatches)
  }

  // `lua_pcallk`.

  predicate PcallAt(stack: Stack, step: PcallPhase) {
    stack != [] && Last(stack).Pcall? && Last(stack).step == step
  }

  /** A successful preflight hands the root of the error handler to the new activation. */
  function PcallBegin(m: Machine, s: LuaState): Result {
    if CanCall(m.stack) then
      var root := m.roots.next;
      Moved(m.(stack := m.stack + [Pcall(s, root, false, Preflight)],
               roots := m.roots.(next := root + 1, held := m.roots.held + {root})), NoJump)
    else Disabled
  }

  /** Consuming the record, or dropping the handler, releases the root. */
  function Release(roots: Roots, frame: Frame): Roots
    requires frame.Pcall?
  {
    roots.(held := if frame.registered then roots.held else roots.held - {frame.root},
           recorded := if frame.registered then roots.recorded - {frame.root} else roots.recorded,
           released := roots.released + multiset{frame.root})
  }

  function ReleaseTop(m: Machine): Machine
    requires m.stack != [] && Last(m.stack).Pcall?
  {
    m.(stack := ReplaceLast(m.stack, Last(m.stack).(step := Released)), roots := Release(m.roots, Last(m.stack)))
  }

  /** With a continuation, inside a coroutine of this state, the root moves into a continuation record. */
  function PcallRegister(m: Machine, pushed: bool): Result {
    if PcallAt(m.stack, Preflight) && !Last(m.stack).registered
       && m.resumeTop.Some? && m.resumeTop.value < |m.stack|
       && IsDriverOf(m.stack[m.resumeTop.value], Last(m.stack).state)
    then
      var frame := Last(m.stack);
      if pushed then
        Moved(m.(stack := ReplaceLast(m.stack, frame.(registered := true)),
                 roots := m.roots.(held := m.roots.held - {frame.root}, recorded := m.roots.recorded + {frame.root})),
              NoJump)
      else Moved(ReleaseTop(m), NoJump)
    else Disabled
  }

  /** Runs the called function, or the handler after a settled error. */
  function PcallDrive(m: Machine): Result {
    if PcallAt(m.stack, Preflight) || PcallAt(m.stack, Settled) then
      var frame := Last(m.stack);
      var running := frame.(step := if frame.step == Preflight then Main else Handler);
      var waiting := m.(stack := ReplaceLast(m.stack, running));
      Moved(PushDriver(waiting, CallDriver, frame.state, running.step == Main && frame.registered), NoJump)
    else Disabled
  }

  /**
   * A driven call that failed with a settled error and a pushed handler goes on; every other
   * result releases the root.
   */
  function PcallResult(m: Machine, handlerPushed: bool): Result {
    if (PcallAt(m.stack, Main) || PcallAt(m.stack, Preflight)) && handlerPushed then
      Moved(m.(stack := ReplaceLast(m.stack, Last(m.stack).(step := Settled))), NoJump)
    else if PcallAt(m.stack, Main) || PcallAt(m.stack, Handler) || PcallAt(m.stack, Preflight)
        || PcallAt(m.stack, Settled) then
      Moved(ReleaseTop(m), NoJump)
    else Disabled
  }

  function PcallReturn(m: Machine): Result {
    if PcallAt(m.stack, Released) then Moved(m.(stack := Below(m.stack)), NoJump) else Disabled
  }

  predicate IsLiveRoot(stack: Stack, root: nat) {
    exists i :: 0 <= i < |stack| && stack[i].Pcall? && stack[i].root == root
  }

  /** A later `lua_resume` consumes the record of an abandoned activation. */
  function ConsumeRecord(m: Machine, root: nat): Result {
    if root in m.roots.recorded && !IsLiveRoot(m.stack, root) then
      Moved(m.(roots := m.roots.(recorded := m.roots.recorded - {root}, released := m.roots.released + multiset{root})),
            NoJump)
    else Disabled
  }

  datatype Step =
    | DoEnter(kind: DriverKind, s: LuaState, yieldable: bool)
    | DoArm | DoBeginStep | DoEndStep | DoBeginAction | DoGuardOn | DoGuardOff | DoEndAction
    | DoInvoke | DoCallbackReturns | DoExit
    | DoRaise(s: LuaState, pendingMatches: bool)
    | DoRaiseTerminal(s: LuaState)
    | DoYield(s: LuaState, nresults: int, prepared: bool, pendingMatches: bool)
    | DoPcallBegin(s: LuaState)
    | DoPcallRegister(pushed: bool)
    | DoPcallDrive
    | DoPcallResult(handlerPushed: bool)
    | DoPcallReturn
    | DoConsumeRecord(root: nat)

  function Take(m: Machine, step: Step): Result {
    if m.halted then Disabled
    else
      match step
      case DoEnter(kind, s, yieldable) => EnterDriver(m, kind, s, yieldable)
      case DoArm => Arm(m)
      case DoBeginStep => BeginStep(m)
      case DoEndStep => EndStep(m)
      case DoBeginAction => BeginAction(m)
      case DoGuardOn => GuardOn(m)
      case DoGuardOff => GuardOff(m)
      case DoEndAction => EndAction(m)
      case DoInvoke => Invoke(m)
      case DoCallbackReturns => CallbackReturns(m)
      case DoExit => ExitDriver(m)
      case DoRaise(s, pendingMatches) => Raise(m, s, pendingMatches)
      case DoRaiseTerminal(s) => RaiseTerminal(m, s)
      case DoYield(s, nresults, prepared, pendingMatches) => Yield(m, s, nresults, prepared, pendingMatches)
      case DoPcallBegin(s) => PcallBegin(m, s)
      case DoPcallRegister(pushed) => PcallRegister(m, pushed)
      case DoPcallDrive => PcallDrive(m)
      case DoPcallResult(handlerPushed) => PcallResult(m, handlerPushed)
      case DoPcallReturn => PcallReturn(m)
      case DoConsumeRecord(root) => ConsumeRecord(m, root)
  }
}
