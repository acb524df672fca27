/**
 * Continuation records over whole histories: an activation consumes its own record, and the
 * record of a suspended call is found again exactly if the coroutine is resumed at the same depth.
 */
module ContinuationRuns {
  import opened Checked
  import opened ControlStack
  import opened Trampoline
  import opened TrampolineSafety
  import opened PcallRoots
  import opened CheckpointRuns
  import opened Continuations
  import opened ContinuationFrames
  import opened ContinuationSteps

  /**
   * In every history, an activation of `lua_pcallk` that consumes its record pops its own: the
   * topmost record of its state has its root, and the number of callback frames now open.
   */
  lemma OwnRecordIsConsumed(worlds: seq<World>, moves: seq<Move>, k: nat)
    requires IsHistory(worlds, moves) && k < |moves| && moves[k].Goes?
    requires Releases(worlds[k].m, moves[k].step, Take(worlds[k].m, moves[k].step))
    ensures var w, frame := worlds[k], Last(worlds[k].m.stack);
            && RecordsOf(w, frame.state) != []
            && LastRecord(w, frame.state) == Record(Some(frame.root), w.depth)
            && worlds[k + 1].records == Pop(w, frame.state)
  {
    hide Inv, Tracked, Placed, Take, Live;
    var w := worlds[k];
    HistoryIsSound(worlds, moves, k);
    assert Next(w, moves[k]) == Some(worlds[k + 1]);
    PcallShape(w.m, moves[k].step);
    TopPcallSteady(w);
    OwnRecordOnTop(w, Last(w.m.stack).state);
  }

  /** The same for `lua_callk`, whose record has no root. */
  lemma CallkRecordIsConsumed(worlds: seq<World>, moves: seq<Move>, k: nat)
    requires IsHistory(worlds, moves) && k < |moves| && moves[k].Goes? && LeavesCallk(worlds[k], moves[k].step)
    ensures var w, s := worlds[k], Last(worlds[k].m.stack).checkpoint.state;
            && RecordsOf(w, s) != []
            && LastRecord(w, s) == Record(None, worlds[k + 1].depth)
            && worlds[k + 1].records == Pop(w, s)
  {
    hide Inv, Tracked, Placed, Take, Live;
    var w := worlds[k];
    HistoryIsSound(worlds, moves, k);
    assert Next(w, moves[k]) == Some(worlds[k + 1]);
    OwnRecordOnTop(w, Last(w.m.stack).checkpoint.state);
  }

  /** In every history, a root is recorded exactly if it is in one record of one state. */
  lemma RecordsHoldTheRoots(worlds: seq<World>, moves: seq<Move>, k: nat, root: nat)
    requires IsHistory(worlds, moves) && k < |worlds|
    ensures root in worlds[k].m.roots.recorded <==> exists s: LuaState, i: nat :: Owns(worlds[k], s, i, root)
    ensures forall s: LuaState, u: LuaState, i: nat, j: nat ::
              Owns(worlds[k], s, i, root) && Owns(worlds[k], u, j, root) ==> s == u && i == j
  {
    hide Owns, Next;
    HistoryIsSound(worlds, moves, k);
  }

  /**
   * In every history, a resume driver or a reset that may take off a record of its coroutine can
   * do so, and no live activation has lost its record.
   */
  lemma DiscardsAreOfAbandoned(worlds: seq<World>, moves: seq<Move>, k: nat, s: LuaState)
    requires IsHistory(worlds, moves) && k < |worlds| && MayDiscard(worlds[k], s) && !worlds[k].m.halted
    ensures Next(worlds[k], Discards(s)).Some?
    ensures Live(worlds[k].m.stack, worlds[k].notes, s) == []
  {
    hide Inv, Tracked, Placed, Take, Live, MayDiscard, Discard;
    HistoryIsSound(worlds, moves, k);
    DiscardedIsAbandoned(worlds[k], s);
    DiscardKeeps(worlds[k], s);
  }

  // A suspended coroutine.

  /** The world with only its first frames, as when the innermost driver was entered. */
  function Shortened(w: World, n: nat, depth: nat): World
    requires n <= |w.m.stack| == |w.notes|
  {
    w.(m := w.m.(stack := w.m.stack[..n]), notes := w.notes[..n], depth := depth)
  }

  /** The driver under a callback that yields across it. */
  lemma CrossedDriver(w: World, step: Step)
    requires Tracked(w) && Inv(w.m) && OnCallback(w.m.stack) && IsYield(Take(w.m, step))
    requires w.m.top != w.m.resumeTop
    ensures |w.m.stack| >= 2
    ensures var j := |w.m.stack| - 2;
            && w.m.resumeTop.value < j
            && IsDriverOf(w.m.stack[j], step.s) && w.m.stack[j].kind == CallDriver && w.m.stack[j].checkpoint.yieldable
            && FrameOk(w.m.stack[..j], w.m.stack[j])
            && w.depth == w.notes[j].depth + 1
  {
    hide Take, Inv, LiveOnTop, Framed, WellFormed;
    YieldShape(w.m, step);
    LinkedWell(w.m);
    var stack, n := w.m.stack, |w.m.stack|;
    assert Last(stack) == stack[n - 1];
    FrameAt(stack, n - 1);
    assert Last(stack[..n - 1]) == stack[n - 2];
    FrameAt(stack, n - 2);
    assert w.m.top == Some(n - 2);
    assert LevelAt(w, n - 1);
  }

  lemma DropFrame(w: World, frame: Frame, note: Note)
    requires Tracked(w) && w.m.stack != [] && Last(w.m.stack) == frame && w.notes[|w.notes| - 1] == note
    requires forall s: LuaState :: Entry(frame, note, s) == []
    ensures Tracked(Shortened(w, |w.m.stack| - 1, note.depth))
  {
    hide Live, Framed, LiveOnTop, Entry, Level;
    LeaveKeeps(w, Shortened(w, |w.m.stack| - 1, note.depth));
  }

  /** A call driver that can be yielded across: the topmost record of its state is that of its call. */
  lemma CallRecord(w: World, s: LuaState)
    requires Tracked(w) && DriverOnTop(w.m.stack) && IsDriverOf(Last(w.m.stack), s)
    requires Last(w.m.stack).kind == CallDriver && Last(w.m.stack).checkpoint.yieldable
    requires FrameOk(Below(w.m.stack), Last(w.m.stack))
    ensures Matches(w, s, w.notes[|w.notes| - 1].depth)
  {
    hide Live, Framed, LiveOnTop, Level;
    var n := |w.m.stack| - 1;
    var depth := w.notes[n].depth;
    MarkedCall(w, n);
    if w.notes[n].registered {
      OwnRecordOnTop(w, s);
    } else {
      DropFrame(w, Last(w.m.stack), w.notes[n]);
      var activation := Shortened(w, n, depth);
      TopPcallSteady(activation);
      OwnRecordOnTop(activation, s);
    }
  }

  /** When a coroutine yields across a call, that call's record is on top, one callback frame below the yield. */
  lemma YieldLeavesRecord(w: World, step: Step)
    requires Tracked(w) && Inv(w.m) && OnCallback(w.m.stack) && IsYield(Take(w.m, step))
    requires w.m.top != w.m.resumeTop
    ensures step.DoYield? && 0 < w.depth && Matches(w, step.s, w.depth - 1)
  {
    hide Take, Inv, Live, Level, LiveOnTop, Framed, WellFormed, FrameOk, Yieldable;
    YieldShape(w.m, step);
    CrossedDriver(w, step);
    TopCallbackSteady(w);
    var n := |w.m.stack| - 1;
    DropFrame(w, Callback, w.notes[n]);
    var call := Shortened(w, n, w.depth);
    assert Below(call.m.stack) == w.m.stack[..n - 1] && Last(call.m.stack) == w.m.stack[n - 1];
    CallRecord(call, step.s);
  }

  lemma TopCallbackSteady(w: World)
    requires Tracked(w) && OnCallback(w.m.stack)
    ensures w.notes[|w.notes| - 1].depth == w.depth
  {
    assert LevelAt(w, |w.notes| - 1);
  }

  lemma MarkedCall(w: World, j: nat)
    requires Tracked(w) && j < |w.m.stack|
    ensures MarkedAt(w.m.stack, w.notes, j)
  {
    hide MarkedAt;
  }

  /** While a coroutine does not run, only a reset touches its records, and nothing its callback frames. */
  lemma IdleKeeps(w: World, move: Move, s: LuaState)
    requires Sound(w) && Next(w, move).Some? && !Running(w, s) && move != Discards(s)
    requires Sound(Next(w, move).value) && !Running(Next(w, move).value, s)
    ensures RecordsOf(Next(w, move).value, s) == RecordsOf(w, s)
    ensures SuspendedOf(Next(w, move).value, s) == SuspendedOf(w, s)
  {
    hide Inv, Tracked, Placed, Take, Live, MayDiscard;
    match move {
      case Discards(_) =>
      case Goes(step, choice) =>
        IdleRecords(w, step, choice, s);
        IdleFrames(w, step, choice, s);
    }
  }

  lemma IdleRecords(w: World, step: Step, choice: Choice, s: LuaState)
    requires Tracked(w) && Advance(w, step, choice).Some? && !Running(w, s)
    ensures RecordsOf(Advance(w, step, choice).value, s) == RecordsOf(w, s)
  {
    hide Tracked, Take, Live, Running;
    if step.DoPcallRegister? || step.DoPcallResult? {
      PcallShape(w.m, step);
    }
    if w.m.stack != [] && Entry(Last(w.m.stack), w.notes[|w.notes| - 1], s) != [] {
      EntryRuns(w, s);
    }
  }

  lemma IdleFrames(w: World, step: Step, choice: Choice, s: LuaState)
    requires Tracked(w) && Inv(w.m) && Advance(w, step, choice).Some? && !Running(w, s)
    requires Tracked(Advance(w, step, choice).value) && !Running(Advance(w, step, choice).value, s)
    ensures SuspendedOf(Advance(w, step, choice).value, s) == SuspendedOf(w, s)
  {
    hide Tracked, Inv, Take, Live;
    var after := Advance(w, step, choice).value;
    if IsYield(Take(w.m, step)) {
      YieldStepKeeps(w, step, choice);
      var t := |after.m.stack| - 1;
      assert Started(w.m.stack[t], w.notes[t], step.s);
    } else if step.DoEndStep? && choice.starts {
      LinkedWell(w.m);
      PopShape(w.m, step);
      var n := |after.m.stack|;
      assert Alike(w.m.stack[n - 1], after.m.stack[n - 1]);
      assert Last(after.m.stack) == after.m.stack[n - 1];
    }
  }

  /** From world `k` to world `l` the coroutine does not run, and no reset drops its records. */
  ghost predicate Idle(worlds: seq<World>, moves: seq<Move>, k: nat, l: nat, s: LuaState)
    requires k <= l < |worlds| == |moves| + 1
  {
    && (forall i :: k <= i <= l ==> |worlds[i].notes| == |worlds[i].m.stack| && !Running(worlds[i], s))
    && (forall i :: k <= i < l ==> moves[i] != Discards(s))
  }

  lemma {:induction false} IdleHistory(worlds: seq<World>, moves: seq<Move>, k: nat, l: nat, s: LuaState)
    requires IsHistory(worlds, moves) && k <= l < |worlds| && Idle(worlds, moves, k, l, s)
    ensures RecordsOf(worlds[l], s) == RecordsOf(worlds[k], s)
    ensures SuspendedOf(worlds[l], s) == SuspendedOf(worlds[k], s)
    decreases l
  {
    hide Sound, Next, Running;
    if k < l {
      var i := l - 1;
      IdleHistory(worlds, moves, k, i, s);
      HistoryIsSound(worlds, moves, i);
      HistoryIsSound(worlds, moves, l);
      assert Next(worlds[i], moves[i]) == Some(worlds[i + 1]);
      IdleKeeps(worlds[i], moves[i], s);
    }
  }

  /** The step yields the coroutine across at least one call. */
  predicate YieldsAcross(w: World, move: Move, s: LuaState) {
    && move.Goes? && move.step.DoYield? && move.step.s == s
    && IsYield(Take(w.m, move.step)) && w.m.top != w.m.resumeTop
  }

  /** The step, of a resume driver entered with `base` callback frames open, starts the coroutine again. */
  predicate Resumes(w: World, move: Move, s: LuaState, base: nat) {
    && move.Goes? && move.step.DoEndStep? && move.choice.starts
    && |w.notes| == |w.m.stack| >= 2 && IsDriverOf(Last(Below(w.m.stack)), s)
    && w.notes[|w.notes| - 2].depth == base
  }

  lemma YieldSuspends(w: World, move: Move, s: LuaState)
    requires Sound(w) && YieldsAcross(w, move, s) && Next(w, move).Some?
    ensures var after := Next(w, move).value;
            && after.depth < w.depth && SuspendedOf(after, s) == w.depth - after.depth
            && Matches(after, s, w.depth - 1)
  {
    hide Inv, Tracked, Placed, Take, Live, Level;
    YieldStepKeeps(w, move.step, move.choice);
    YieldShape(w.m, move.step);
    YieldLeavesRecord(w, move.step);
    CrossedDriver(w, move.step);
    YieldRises(w, w.m.resumeTop.value);
  }

  lemma YieldRises(w: World, t: nat)
    requires Tracked(w) && t <= |w.m.stack| - 2
    ensures w.notes[t].depth <= w.notes[|w.notes| - 2].depth
  {
    Rises(w, t, |w.m.stack| - 2);
  }

  /**
   * A coroutine yields across a call and is later resumed. When the frame of the callback that
   * yielded has been closed, the resume driver looks for the record of that call. It finds it if
   * and only if the coroutine was resumed with as many callback frames open under it as before.
   */
  lemma RecordIsFoundAgain(worlds: seq<World>, moves: seq<Move>, k: nat, l: nat, s: LuaState, base: nat)
    requires IsHistory(worlds, moves) && k < l < |moves|
    requires YieldsAcross(worlds[k], moves[k], s) && Idle(worlds, moves, k + 1, l, s)
    requires Resumes(worlds[l], moves[l], s, base)
    ensures 0 < worlds[l + 1].depth
    ensures Matches(worlds[l + 1], s, worlds[l + 1].depth - 1) <==> base == worlds[k + 1].depth
  {
    hide Sound, Take, Idle, YieldsAcross, Running, Next, Resumes;
    HistoryIsSound(worlds, moves, k);
    assert Next(worlds[k], moves[k]) == Some(worlds[k + 1]);
    assert Next(worlds[l], moves[l]) == Some(worlds[l + 1]);
    YieldSuspends(worlds[k], moves[k], s);
    IdleHistory(worlds, moves, k + 1, l, s);
    ResumeRestores(worlds[l], moves[l], s, base);
  }

  lemma ResumeRestores(w: World, move: Move, s: LuaState, base: nat)
    requires Resumes(w, move, s, base) && Next(w, move).Some? && 0 < SuspendedOf(w, s)
    ensures Next(w, move).value.depth == base + SuspendedOf(w, s)
    ensures RecordsOf(Next(w, move).value, s) == RecordsOf(w, s)
  {
    hide Take, Running;
  }

  // An example: a coroutine that is resumed from deeper down.

  function Play(w: World, moves: seq<Move>): Option<World>
    decreases |moves|
  {
    if |moves| == 0 then Some(w)
    else
      match Next(w, moves[0])
      case None => None
      case Some(after) => Play(after, moves[1..])
  }

  /** Moves that can be played from the start are those of a history. */
  lemma {:induction false} PlayIsHistory(moves: seq<Move>) returns (worlds: seq<World>)
    requires Play(Begin(), moves).Some?
    ensures IsHistory(worlds, moves) && Some(worlds[|moves|]) == Play(Begin(), moves)
  {
    hide Next;
    worlds := PlayedWorlds(Begin(), moves);
  }

  lemma {:induction false} PlayedWorlds(w: World, moves: seq<Move>) returns (worlds: seq<World>)
    requires Play(w, moves).Some?
    ensures |worlds| == |moves| + 1 && worlds[0] == w && Some(worlds[|moves|]) == Play(w, moves)
    ensures forall i :: 0 <= i < |moves| ==> Next(worlds[i], moves[i]) == Some(worlds[i + 1])
    decreases |moves|
  {
    hide Next;
    if |moves| == 0 {
      worlds := [w];
    } else {
      var rest := PlayedWorlds(Next(w, moves[0]).value, moves[1..]);
      worlds := [w] + rest;
      forall i | 0 <= i < |moves| ensures Next(worlds[i], moves[i]) == Some(worlds[i + 1]) {
        assert i > 0 ==> Next(rest[i - 1], moves[1..][i - 1]) == Some(rest[i]);
      }
    }
  }

  lemma {:induction false} PlayBoth(w: World, a: seq<Move>, b: seq<Move>)
    requires Play(w, a).Some?
    ensures Play(w, a + b) == Play(Play(w, a).value, b)
    decreases |a|
  {
    hide Next;
    if |a| == 0 {
      assert a + b == b;
    } else {
      assert (a + b)[1..] == a[1..] + b;
      PlayBoth(Next(w, a[0]).value, a[1..], b);
    }
  }

  function Plain(step: Step): Move { Goes(step, Choice(0, false)) }

  /** A driver is entered, and its first step opens callback frames or reopens them. */
  function Opening(kind: DriverKind, s: LuaState, yieldable: bool, depth: nat): seq<Move> {
    [Plain(DoEnter(kind, s, yieldable)), Plain(DoArm), Plain(DoBeginStep),
     Goes(DoEndStep, Choice(depth, kind == ResumeDriver))]
  }

  predicate Ready(w: World) {
    |w.notes| == |w.m.stack| && !w.m.halted
  }

  predicate MayOpen(w: World, kind: DriverKind, s: LuaState, yieldable: bool) {
    && Ready(w) && CanCall(w.m.stack)
    && match kind
       case CallDriver => yieldable ==> !DriverOnTop(w.m.stack) && Resuming(w.m, s) && Running(w, s)
       case ResumeDriver => yieldable
       case _ => false
  }

  /** What entering the driver does to the world. */
  function WithDriver(w: World, kind: DriverKind, s: LuaState, yieldable: bool): World {
    var registers := kind == CallDriver && yieldable;
    w.(m := PushDriver(w.m, kind, s, yieldable),
       notes := w.notes + [Note(w.depth, false, registers)],
       records := if registers then Push(w, s, Record(None, w.depth)) else w.records)
  }

  lemma NextEnter(w: World, kind: DriverKind, s: LuaState, yieldable: bool)
    requires MayOpen(w, kind, s, yieldable)
    ensures Next(w, Plain(DoEnter(kind, s, yieldable))) == Some(WithDriver(w, kind, s, yieldable))
  {
    hide Running, Resuming;
  }

  lemma NextArm(w: World)
    requires Ready(w) && DriverOnTop(w.m.stack) && Quiet(w.m.stack)
    ensures var armed := ReplaceLast(w.m.stack, WithFlags(Last(w.m.stack), false, true));
            Next(w, Plain(DoArm)) == Some(w.(m := w.m.(stack := armed)))
  {
    assert w.notes[..|w.notes|] == w.notes;
  }

  lemma NextBeginStep(w: World)
    requires Ready(w) && DriverOnTop(w.m.stack) && Quiet(w.m.stack) && Last(w.m.stack).kind != ProtectDriver
    ensures var guarded := ReplaceLast(w.m.stack, WithFlags(Last(w.m.stack), true, Last(w.m.stack).checkpoint.armed));
            Next(w, Plain(DoBeginStep))
            == Some(w.(m := w.m.(stack := guarded + [Action(Active)]),
                       notes := w.notes + [Note(w.depth, false, false)]))
  {
  }

  lemma NextEndStep(w: World, choice: Choice)
    requires Ready(w) && ActionOnTop(w.m.stack, Active) && MayEndStep(w, choice)
    requires Last(Below(w.m.stack)).kind != ProtectDriver
    ensures var below, n := Below(w.m.stack), |w.notes| - 2;
            var open := ReplaceLast(below, WithFlags(Last(below), false, Last(below).checkpoint.armed));
            var s := Last(below).checkpoint.state;
            Next(w, Goes(DoEndStep, choice))
            == Some(w.(m := w.m.(stack := open), depth := choice.depth,
                       notes := w.notes[..n] + [w.notes[n].(started := choice.starts || w.notes[n].started)],
                       suspended := if choice.starts then w.suspended[s := 0] else w.suspended))
  {
    hide MayEndStep;
    var n := |w.notes| - 2;
    var started := w.notes[n].(started := true);
    assert w.notes[..n + 1] == w.notes[..n] + [w.notes[n]];
    assert w.notes[..n + 1][n := started] == w.notes[..n] + [started];
  }

  lemma NextInvoke(w: World)
    requires Ready(w) && DriverOnTop(w.m.stack) && CanCall(w.m.stack) && MayInvoke(w)
    ensures Next(w, Plain(DoInvoke))
            == Some(w.(m := w.m.(stack := w.m.stack + [Callback]), notes := w.notes + [Note(w.depth, false, false)]))
  {
    hide MayInvoke;
  }

  /** A driver is entered and ends its first step with callback frames open. */
  function Opened(w: World, kind: DriverKind, s: LuaState, yieldable: bool, depth: nat): World {
    var resumes := kind == ResumeDriver;
    var driver := Driver(kind, NewCheckpoint(w.m, s, yieldable).(armed := true));
    var entered := WithDriver(w, kind, s, yieldable);
    entered.(m := entered.m.(stack := w.m.stack + [driver]),
             depth := depth,
             notes := w.notes + [Note(w.depth, resumes, kind == CallDriver && yieldable)],
             suspended := if resumes then w.suspended[s := 0] else w.suspended)
  }

  lemma PlayFour(w: World, a: Move, b: Move, c: Move, d: Move, w1: World, w2: World, w3: World, w4: World)
    requires Next(w, a) == Some(w1) && Next(w1, b) == Some(w2) && Next(w2, c) == Some(w3) && Next(w3, d) == Some(w4)
    ensures Play(w, [a, b, c, d]) == Some(w4)
  {
    hide Next;
    assert [a, b, c, d][1..] == [b, c, d] && [b, c, d][1..] == [c, d] && [c, d][1..] == [d] && [d][1..] == [];
    assert Play(w4, []) == Some(w4);
    assert Play(w3, [d]) == Some(w4);
    assert Play(w2, [c, d]) == Some(w4);
    assert Play(w1, [b, c, d]) == Some(w4);
  }

  lemma PlayOpening(w: World, kind: DriverKind, s: LuaState, yieldable: bool, depth: nat)
    requires MayOpen(w, kind, s, yieldable)
    requires w.depth <= depth && (kind == ResumeDriver ==> !Running(w, s))
    requires kind == ResumeDriver && 0 < SuspendedOf(w, s) ==> depth == w.depth + SuspendedOf(w, s)
    ensures Play(w, Opening(kind, s, yieldable, depth)) == Some(Opened(w, kind, s, yieldable, depth))
  {
    hide Next, Running, Play, CanCall, Push;
    var moves := Opening(kind, s, yieldable, depth);
    NextEnter(w, kind, s, yieldable);
    var w1 := WithDriver(w, kind, s, yieldable);
    NextArm(w1);
    var w2 := Next(w1, moves[1]).value;
    assert w2.m.stack == w.m.stack + [Last(Opened(w, kind, s, yieldable, depth).m.stack)];
    NextBeginStep(w2);
    var w3 := Next(w2, moves[2]).value;
    EndOpening(w, kind, s, yieldable, depth, w3);
    PlayFour(w, moves[0], moves[1], moves[2], moves[3], w1, w2, w3, Opened(w, kind, s, yieldable, depth));
  }

  lemma EndOpening(w: World, kind: DriverKind, s: LuaState, yieldable: bool, depth: nat, stepping: World)
    requires Ready(w) && kind in {CallDriver, ResumeDriver}
    requires w.depth <= depth && (kind == ResumeDriver ==> !Running(w, s))
    requires kind == ResumeDriver && 0 < SuspendedOf(w, s) ==> depth == w.depth + SuspendedOf(w, s)
    requires var driver := Last(Opened(w, kind, s, yieldable, depth).m.stack);
             var entered := WithDriver(w, kind, s, yieldable);
             stepping == entered.(m := entered.m.(stack := w.m.stack + [WithFlags(driver, true, true), Action(Active)]),
                                  notes := entered.notes + [Note(w.depth, false, false)])
    ensures Next(stepping, Goes(DoEndStep, Choice(depth, kind == ResumeDriver)))
            == Some(Opened(w, kind, s, yieldable, depth))
  {
    hide Next, Running, Push;
    assert Below(stepping.m.stack) == w.m.stack + [stepping.m.stack[|w.m.stack|]];
    assert stepping.notes[..|w.notes|] == w.notes;
    if kind == ResumeDriver {
      NotRunningAbove(w, stepping, s);
    }
    NextEndStep(stepping, Choice(depth, kind == ResumeDriver));
  }

  lemma NotRunningAbove(w: World, above: World, s: LuaState)
    requires Ready(w) && Ready(above) && w.m.stack <= above.m.stack && w.notes <= above.notes && !Running(w, s)
    requires forall i :: |w.notes| <= i < |above.notes| ==> !above.notes[i].started
    ensures !Running(above, s)
  {
    forall i | 0 <= i < |above.m.stack| ensures !Started(above.m.stack[i], above.notes[i], s) {
      assert i < |w.m.stack| ==> !Started(w.m.stack[i], w.notes[i], s);
    }
  }

  function Invoked(w: World): World {
    w.(m := w.m.(stack := w.m.stack + [Callback]), notes := w.notes + [Note(w.depth, false, false)])
  }

  /** The host resumes coroutine 1, whose C function calls another one with `lua_callk`. */
  function Calling(): World {
    Invoked(Opened(Invoked(Opened(Begin(), ResumeDriver, 1, true, 1)), CallDriver, 1, true, 2))
  }

  lemma PlayCalling()
    ensures Play(Begin(), Opening(ResumeDriver, 1, true, 1) + [Plain(DoInvoke)] + Opening(CallDriver, 1, true, 2)
                          + [Plain(DoInvoke)])
            == Some(Calling())
  {
    hide Play, Next;
    var first := Opened(Begin(), ResumeDriver, 1, true, 1);
    PlayOpening(Begin(), ResumeDriver, 1, true, 1);
    NextInvoke(first);
    var called := Invoked(first);
    assert Started(called.m.stack[0], called.notes[0], 1);
    PlayOpening(called, CallDriver, 1, true, 2);
    var second := Opened(called, CallDriver, 1, true, 2);
    NextInvoke(second);
    PlayThenInvoke(Begin(), Opening(ResumeDriver, 1, true, 1), first);
    PlayBoth(Begin(), Opening(ResumeDriver, 1, true, 1) + [Plain(DoInvoke)], Opening(CallDriver, 1, true, 2));
    PlayThenInvoke(Begin(), Opening(ResumeDriver, 1, true, 1) + [Plain(DoInvoke)] + Opening(CallDriver, 1, true, 2),
                   second);
  }

  lemma PlayThenInvoke(w: World, moves: seq<Move>, after: World)
    requires Play(w, moves) == Some(after) && Next(after, Plain(DoInvoke)) == Some(Invoked(after))
    ensures Play(w, moves + [Plain(DoInvoke)]) == Some(Invoked(after))
  {
    hide Next;
    PlayBoth(w, moves, [Plain(DoInvoke)]);
    assert Play(Invoked(after), [Plain(DoInvoke)][1..]) == Some(Invoked(after));
  }

  /** The called function yields: the coroutine is put aside with two callback frames. */
  predicate Aside(w: World) {
    && Ready(w) && w.m.stack == [] && w.depth == 0
    && RecordsOf(w, 1) == [Record(None, 1)] && SuspendedOf(w, 1) == 2
  }

  lemma NextYield() returns (w: World)
    ensures Next(Calling(), Plain(DoYield(1, 0, true, false))) == Some(w)
    ensures |w.m.stack| == 1 && Ready(w) && DriverOnTop(w.m.stack) && Quiet(w.m.stack)
    ensures Last(w.m.stack).kind == ResumeDriver && w.notes == [Note(0, false, false)]
    ensures RecordsOf(w, 1) == [Record(None, 1)] && SuspendedOf(w, 1) == 2
  {
    hide Running, Resuming, MayInvoke, MayEndStep;
    var m := Calling().m;
    assert m.top == Some(2) && m.resumeTop == Some(0) && |m.stack| == 4;
    assert ScanTo(m.stack, Some(0), 0, 1) == Reached(0);
    assert ScanTo(m.stack, m.top, 0, 1) == Reached(1);
    assert RewindTokens(TokensOf(m, 1), m.stack[0].checkpoint.token, 1).Accepted?;
    assert IsYield(Take(m, DoYield(1, 0, true, false)));
    w := Next(Calling(), Plain(DoYield(1, 0, true, false))).value;
  }

  lemma NextExit(w: World)
    requires |w.m.stack| == 1 && Ready(w) && DriverOnTop(w.m.stack) && Quiet(w.m.stack)
    requires Last(w.m.stack).kind == ResumeDriver && w.notes == [Note(0, false, false)]
    requires RecordsOf(w, 1) == [Record(None, 1)] && SuspendedOf(w, 1) == 2
    ensures Next(w, Plain(DoExit)).Some? && Aside(Next(w, Plain(DoExit)).value)
  {
  }

  /** From the host, and from a C function that the host calls. */
  lemma ResumeFromHost(w: World) returns (last: World)
    requires Aside(w)
    ensures Play(w, Opening(ResumeDriver, 1, true, 2)) == Some(last)
    ensures last.depth == 2 && Matches(last, 1, last.depth - 1)
  {
    PlayOpening(w, ResumeDriver, 1, true, 2);
    last := Opened(w, ResumeDriver, 1, true, 2);
  }

  lemma ResumeFromCallback(w: World) returns (last: World)
    requires Aside(w)
    ensures Play(w, Opening(CallDriver, 0, false, 1) + [Plain(DoInvoke)] + Opening(ResumeDriver, 1, true, 3))
            == Some(last)
    ensures last.depth == 3 && RecordsOf(last, 1) == [Record(None, 1)] && !Matches(last, 1, last.depth - 1)
  {
    hide Play, Next;
    PlayOpening(w, CallDriver, 0, false, 1);
    var first := Opened(w, CallDriver, 0, false, 1);
    NextInvoke(first);
    PlayThenInvoke(w, Opening(CallDriver, 0, false, 1), first);
    var called := Invoked(first);
    NotRunningAbove(w, called, 1);
    PlayOpening(called, ResumeDriver, 1, true, 3);
    PlayBoth(w, Opening(CallDriver, 0, false, 1) + [Plain(DoInvoke)], Opening(ResumeDriver, 1, true, 3));
    last := Opened(called, ResumeDriver, 1, true, 3);
  }

  /**
   * A coroutine that yielded across a `lua_callk` when the host had resumed it: the host resumes
   * it again and its record is found; a C function resumes it and the record is not found.
   */
  lemma ResumeExample() returns (before: seq<Move>, host: World, callback: World)
    ensures Play(Begin(), before + Opening(ResumeDriver, 1, true, 2)) == Some(host)
    ensures host.depth == 2 && Matches(host, 1, host.depth - 1)
    ensures Play(Begin(), before + (Opening(CallDriver, 0, false, 1) + [Plain(DoInvoke)]
                                    + Opening(ResumeDriver, 1, true, 3)))
            == Some(callback)
    ensures callback.depth == 3 && RecordsOf(callback, 1) != [] && !Matches(callback, 1, callback.depth - 1)
  {
    hide Play, Next, Calling;
    PlayCalling();
    var w := NextYield();
    NextExit(w);
    var calling := Opening(ResumeDriver, 1, true, 1) + [Plain(DoInvoke)] + Opening(CallDriver, 1, true, 2)
      + [Plain(DoInvoke)];
    var ends := [Plain(DoYield(1, 0, true, false)), Plain(DoExit)];
    var aside := Next(w, Plain(DoExit)).value;
    PlayTwo(Calling(), ends[0], ends[1], w, aside);
    PlayBoth(Begin(), calling, ends);
    before := calling + ends;
    host := ResumeFromHost(aside);
    callback := ResumeFromCallback(aside);
    PlayBoth(Begin(), before, Opening(ResumeDriver, 1, true, 2));
    PlayBoth(Begin(), before,
             Opening(CallDriver, 0, false, 1) + [Plain(DoInvoke)] + Opening(ResumeDriver, 1, true, 3));
  }

  lemma PlayTwo(w: World, a: Move, b: Move, w1: World, w2: World)
    requires Next(w, a) == Some(w1) && Next(w1, b) == Some(w2)
    ensures Play(w, [a, b]) == Some(w2)
  {
    hide Next;
    assert [a, b][1..] == [b] && [b][1..] == [];
    assert Play(w2, []) == Some(w2);
    assert Play(w1, [b]) == Some(w2);
  }
}
