/**
 * The continuation records of `lua_callk` and `lua_pcallk`, over the checkpoint machine.
 *
 * Each Lua state has a stack of records. A record notes how many callback frames were open when
 * it was pushed, and whoever consumes a record pops the topmost one of the state, but only if
 * that number is the current one; the result is ignored. This module adds the callback frames
 * and the records to the machine, step by step.
 *
 * The consistency checks inside Rust succeed: a driver leaves with the callback frames it found,
 * and a yield takes off those of its coroutine. Drivers call neither `lua_callk` nor
 * `lua_pcallk`, and `lua_yieldk` is called from callbacks only.
 */
module Continuations {
  import opened Checked
  import opened ControlStack
  import opened Trampoline

  /** `owner` is the handler root of a `lua_pcallk`; a `lua_callk` has none. */
  datatype Record = Record(owner: Option<nat>, depth: nat)

  /**
   * Beside each frame of the control stack: the callback frames that were open when it was
   * entered; for a resume driver, whether its coroutine runs; for a call driver, whether it is
   * that of a `lua_callk` with a record.
   */
  datatype Note = Note(depth: nat, started: bool, registered: bool)

  /** `depth` counts the open callback frames, `suspended` those put aside for each coroutine. */
  datatype World = World(
    m: Machine,
    depth: nat,
    notes: seq<Note>,
    records: map<LuaState, seq<Record>>,
    suspended: map<LuaState, nat>)

  function Begin(): World {
    World(Start(), 0, [], map[], map[])
  }

  function RecordsOf(w: World, s: LuaState): seq<Record> {
    if s in w.records then w.records[s] else []
  }

  function SuspendedOf(w: World, s: LuaState): nat {
    if s in w.suspended then w.suspended[s] else 0
  }

  /** A started resume driver of the state. */
  predicate Started(frame: Frame, note: Note, s: LuaState) {
    IsDriverOf(frame, s) && frame.kind == ResumeDriver && note.started
  }

  predicate Running(w: World, s: LuaState)
    requires |w.notes| == |w.m.stack|
  {
    exists i :: 0 <= i < |w.m.stack| && Started(w.m.stack[i], w.notes[i], s)
  }

  /** The innermost resume driver is that of the state. */
  predicate Resuming(m: Machine, s: LuaState) {
    m.resumeTop.Some? && m.resumeTop.value < |m.stack| && IsDriverOf(m.stack[m.resumeTop.value], s)
  }

  // Records.

  /** `continuation_push_a5`. */
  function Push(w: World, s: LuaState, record: Record): map<LuaState, seq<Record>> {
    w.records[s := RecordsOf(w, s) + [record]]
  }

  predicate Matches(w: World, s: LuaState, depth: nat) {
    RecordsOf(w, s) != [] && RecordsOf(w, s)[|RecordsOf(w, s)| - 1].depth == depth
  }

  function LastRecord(w: World, s: LuaState): Record
    requires RecordsOf(w, s) != []
  {
    RecordsOf(w, s)[|RecordsOf(w, s)| - 1]
  }

  function Pop(w: World, s: LuaState): map<LuaState, seq<Record>>
    requires RecordsOf(w, s) != []
  {
    w.records[s := RecordsOf(w, s)[..|RecordsOf(w, s)| - 1]]
  }

  /** `continuation_step_a5`, consuming. */
  function Consume(w: World, s: LuaState, depth: nat): map<LuaState, seq<Record>> {
    if Matches(w, s, depth) then Pop(w, s) else w.records
  }

  // Steps.

  /** What Rust decides when a step ends: the callback frames then open, and whether a coroutine starts or goes on. */
  datatype Choice = Choice(depth: nat, starts: bool)

  predicate OnCallback(stack: Stack) {
    stack != [] && Last(stack) == Callback
  }

  /** A call driver has one callback frame open while its callback runs. */
  predicate MayInvoke(w: World)
    requires |w.notes| == |w.m.stack|
  {
    DriverOnTop(w.m.stack) ==>
      var driver, note := Last(w.m.stack), w.notes[|w.notes| - 1];
      match driver.kind
      case CallDriver => w.depth == note.depth + 1
      case ResumeDriver => note.started && note.depth < w.depth
      case _ => true
  }

  /**
   * A step of a resume driver starts the coroutine if it is not running yet. It then reopens the
   * callback frames put aside. A step that is refused opens none.
   */
  predicate MayEndStep(w: World, choice: Choice)
    requires |w.notes| == |w.m.stack|
  {
    |w.m.stack| >= 2 && Last(Below(w.m.stack)).Driver? ==>
      var driver, note := Last(Below(w.m.stack)), w.notes[|w.notes| - 2];
      var s := driver.checkpoint.state;
      && note.depth <= choice.depth
      && (choice.starts ==> driver.kind == ResumeDriver && !Running(w, s))
      && (choice.starts && 0 < SuspendedOf(w, s) ==> choice.depth == note.depth + SuspendedOf(w, s))
      && (driver.kind == ResumeDriver && !note.started && !choice.starts ==> choice.depth == note.depth)
  }

  predicate MayTake(w: World, step: Step, choice: Choice)
    requires |w.notes| == |w.m.stack|
  {
    match step
    case DoEnter(kind, s, yieldable) =>
      kind == CallDriver && yieldable ==> !DriverOnTop(w.m.stack) && Resuming(w.m, s) && Running(w, s)
    case DoEndStep => MayEndStep(w, choice)
    case DoInvoke => MayInvoke(w)
    case DoYield(_, _, prepared, _) => prepared ==> OnCallback(w.m.stack)
    case DoPcallBegin(_) => !DriverOnTop(w.m.stack)
    case DoPcallRegister(pushed) =>
      pushed && w.m.stack != [] && Last(w.m.stack).Pcall? ==> Running(w, Last(w.m.stack).state)
    case DoConsumeRecord(_) => false
    case _ => true
  }

  predicate IsYield(r: Trampoline.Result) {
    r.Moved? && r.jump.Jumped? && r.jump.code == YIELD_CODE
  }

  function NextDepth(w: World, step: Step, choice: Choice, r: Trampoline.Result): nat
    requires |w.notes| == |w.m.stack| && r == Take(w.m, step) && r.Moved?
  {
    if step.DoEndStep? then choice.depth
    else if step.DoExit? then w.notes[|w.notes| - 1].depth
    else if IsYield(r) && r.jump.target < |w.notes| then w.notes[r.jump.target].depth
    else w.depth
  }

  function NextNotes(w: World, step: Step, choice: Choice, r: Trampoline.Result): seq<Note>
    requires |w.notes| == |w.m.stack| && r.Moved?
  {
    var n := |r.next.stack|;
    if |w.notes| < n then
      w.notes + [Note(w.depth, false, step.DoEnter? && step.kind == CallDriver && step.yieldable)]
    else
      var kept := w.notes[..n];
      if n == 0 then kept
      else if step.DoEndStep? && choice.starts then kept[n - 1 := kept[n - 1].(started := true)]
      else if IsYield(r) then kept[n - 1 := kept[n - 1].(started := false)]
      else kept
  }

  /** Whether the step consumes the record of the innermost activation, and at which depth. */
  predicate Releases(m: Machine, step: Step, r: Trampoline.Result) {
    && step.DoPcallResult? && r.Moved? && m.stack != [] && Last(m.stack).Pcall? && Last(m.stack).registered
    && PcallAt(r.next.stack, Released)
  }

  predicate LeavesCallk(w: World, step: Step) {
    && step.DoExit? && |w.notes| == |w.m.stack| > 0
    && Last(w.m.stack).Driver? && Last(w.m.stack).kind == CallDriver && w.notes[|w.notes| - 1].registered
  }

  function NextRecords(w: World, step: Step, r: Trampoline.Result): map<LuaState, seq<Record>>
    requires |w.notes| == |w.m.stack| && r == Take(w.m, step) && r.Moved?
  {
    if step.DoEnter? && step.kind == CallDriver && step.yieldable then Push(w, step.s, Record(None, w.depth))
    else if step.DoPcallRegister? && step.pushed then
      Push(w, Last(w.m.stack).state, Record(Some(Last(w.m.stack).root), w.depth))
    else if Releases(w.m, step, r) then Consume(w, Last(w.m.stack).state, w.depth)
    else if LeavesCallk(w, step) then
      Consume(w, Last(w.m.stack).checkpoint.state, w.notes[|w.notes| - 1].depth)
    else w.records
  }

  function NextSuspended(w: World, step: Step, choice: Choice, r: Trampoline.Result): map<LuaState, nat>
    requires |w.notes| == |w.m.stack| && r == Take(w.m, step) && r.Moved?
  {
    if step.DoYield? && IsYield(r) && r.jump.target < |w.notes| && w.notes[r.jump.target].depth <= w.depth then
      w.suspended[step.s := w.depth - w.notes[r.jump.target].depth]
    else if step.DoEndStep? && choice.starts then w.suspended[Last(r.next.stack).checkpoint.state := 0]
    else w.suspended
  }

  function Advance(w: World, step: Step, choice: Choice): Option<World> {
    var r := Take(w.m, step);
    if |w.notes| != |w.m.stack| || r.Disabled? || !MayTake(w, step, choice) then None
    else
      Some(World(r.next, NextDepth(w, step, choice, r), NextNotes(w, step, choice, r), NextRecords(w, step, r),
                 NextSuspended(w, step, choice, r)))
  }

  /**
   * A resume driver looks for the record of its innermost callback frame. Closing a coroutine
   * that does not run drops its records.
   */
  predicate MayDiscard(w: World, s: LuaState) {
    && RecordsOf(w, s) != [] && |w.notes| == |w.m.stack| > 0 && IsDriverOf(Last(w.m.stack), s)
    && match Last(w.m.stack).kind
       case ResumeDriver =>
         var note := w.notes[|w.notes| - 1];
         note.started && note.depth < w.depth && Matches(w, s, w.depth)
       case ResetDriver => !Running(w, s)
       case _ => false
  }

  /** Taking off a record whose activation is gone, and releasing its root. */
  function Discard(w: World, s: LuaState): Option<World> {
    if w.m.halted || !MayDiscard(w, s) then None
    else
      match LastRecord(w, s).owner
      case None => Some(w.(records := Pop(w, s)))
      case Some(root) =>
        var r := ConsumeRecord(w.m, root);
        if r.Disabled? then None else Some(w.(m := r.next, records := Pop(w, s)))
  }

  datatype Move = Goes(step: Step, choice: Choice) | Discards(s: LuaState)

  function Next(w: World, move: Move): Option<World> {
    match move
    case Goes(step, choice) => Advance(w, step, choice)
    case Discards(s) => Discard(w, s)
  }
}
