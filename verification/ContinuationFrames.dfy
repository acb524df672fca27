/** How continuation records relate to the frames of the control stack, and which changes keep that relation. */
module ContinuationFrames {
  import opened Checked
  import opened ControlStack
  import opened Trampoline
  import opened TrampolineSafety
  import opened Continuations

  // The records of live activations.

  /** The record that a live frame of this state has pushed and not yet consumed. */
  function Entry(frame: Frame, note: Note, s: LuaState): seq<Record> {
    match frame
    case Pcall(state, root, registered, step) =>
      if state == s && registered && step != Released then [Record(Some(root), note.depth)] else []
    case Driver(kind, c) =>
      if kind == CallDriver && note.registered && c.state == s then [Record(None, note.depth)] else []
    case _ => []
  }

  function Live(stack: Stack, notes: seq<Note>, s: LuaState): seq<Record>
    requires |notes| == |stack|
  {
    if |stack| == 0 then []
    else Live(Below(stack), notes[..|notes| - 1], s) + Entry(Last(stack), notes[|notes| - 1], s)
  }

  predicate EndsWith(all: seq<Record>, last: seq<Record>) {
    |last| <= |all| && all[|all| - |last|..] == last
  }

  /** In each state, the records of the live activations are the topmost ones, innermost last. */
  ghost predicate LiveOnTop(w: World)
    requires |w.notes| == |w.m.stack|
  {
    forall s: LuaState :: EndsWith(RecordsOf(w, s), Live(w.m.stack, w.notes, s))
  }

  /** The callback frames open when frame `i` was entered, and now. */
  function DepthAt(w: World, i: nat): nat
    requires i <= |w.notes|
  {
    if i < |w.notes| then w.notes[i].depth else w.depth
  }

  /** Callback frames are opened and closed by steps of drivers only. */
  predicate LevelAt(w: World, i: nat)
    requires i < |w.notes| == |w.m.stack|
  {
    && DepthAt(w, i) <= DepthAt(w, i + 1)
    && (w.m.stack[i].Callback? || w.m.stack[i].Pcall? ==> DepthAt(w, i) == DepthAt(w, i + 1))
    && (0 < i && w.m.stack[i].Callback? && w.m.stack[i - 1].Driver? && w.m.stack[i - 1].kind == CallDriver ==>
          DepthAt(w, i) == DepthAt(w, i - 1) + 1)
  }

  ghost predicate Level(w: World)
    requires |w.notes| == |w.m.stack|
  {
    forall i :: 0 <= i < |w.m.stack| ==> LevelAt(w, i)
  }

  /** No frame under a started resume driver has a record of its state. */
  ghost predicate Alone(stack: Stack, notes: seq<Note>)
    requires |notes| == |stack|
  {
    forall i, j, s: LuaState :: 0 <= j < i < |stack| && Started(stack[i], notes[i], s) ==>
      Entry(stack[j], notes[j], s) == []
  }

  /** A live record belongs to a coroutine that was started under it. */
  ghost predicate Covered(stack: Stack, notes: seq<Note>)
    requires |notes| == |stack|
  {
    forall j, s: LuaState :: 0 <= j < |stack| && Entry(stack[j], notes[j], s) != [] ==>
      exists i :: 0 <= i < j && Started(stack[i], notes[i], s)
  }

  /** What may stand on a resume driver that has not started: no callback and no call that can be yielded across. */
  predicate Barrier(frame: Frame) {
    frame.Action? || (frame.Driver? && !(frame.kind == CallDriver && frame.checkpoint.yieldable))
  }

  ghost predicate Barred(stack: Stack, notes: seq<Note>)
    requires |notes| == |stack|
  {
    forall i :: 0 <= i < |stack| - 1 && stack[i].Driver? && stack[i].kind == ResumeDriver && !notes[i].started ==>
      Barrier(stack[i + 1])
  }

  /** A call that can be yielded across is that of a `lua_callk` with a record, or of a `lua_pcallk`. */
  predicate MarkedAt(stack: Stack, notes: seq<Note>, i: nat)
    requires i < |notes| == |stack|
  {
    stack[i].Driver? && stack[i].kind == CallDriver && stack[i].checkpoint.yieldable ==>
      notes[i].registered || (0 < i && stack[i - 1].Pcall?)
  }

  ghost predicate Marked(stack: Stack, notes: seq<Note>)
    requires |notes| == |stack|
  {
    forall i :: 0 <= i < |stack| ==> MarkedAt(stack, notes, i)
  }

  ghost predicate Framed(stack: Stack, notes: seq<Note>)
    requires |notes| == |stack|
  {
    Alone(stack, notes) && Covered(stack, notes) && Barred(stack, notes) && Marked(stack, notes)
  }

  ghost predicate Tracked(w: World) {
    |w.notes| == |w.m.stack| && Level(w) && LiveOnTop(w) && Framed(w.m.stack, w.notes)
  }

  // Frames that differ only in what does not matter here.

  predicate Alike(a: Frame, b: Frame) {
    match a
    case Driver(kind, c) =>
      b.Driver? && b.kind == kind && b.checkpoint.state == c.state && b.checkpoint.yieldable == c.yieldable
    case Callback => b.Callback?
    case Action(_) => b.Action?
    case Pcall(state, root, registered, step) =>
      && b.Pcall?
      && (registered && step != Released <==> b.registered && b.step != Released)
      && (registered && step != Released ==> b.state == state && b.root == root)
  }

  ghost predicate AlikeUpTo(a: Stack, b: Stack, n: nat)
    requires n <= |a| && n <= |b|
  {
    forall i :: 0 <= i < n ==> Alike(a[i], b[i])
  }

  lemma AlikeEntries(a: Frame, b: Frame, note: Note, s: LuaState)
    requires Alike(a, b)
    ensures Entry(a, note, s) == Entry(b, note, s) && Started(a, note, s) == Started(b, note, s)
  {
  }

  /** Cutting a stack above its live records leaves them. */
  lemma {:induction false} LiveOfCut(a: Stack, na: seq<Note>, b: Stack, nb: seq<Note>, s: LuaState)
    requires |na| == |a| && |nb| == |b| <= |a|
    requires forall i :: 0 <= i < |b| ==> Entry(a[i], na[i], s) == Entry(b[i], nb[i], s)
    requires forall i :: |b| <= i < |a| ==> Entry(a[i], na[i], s) == []
    ensures Live(b, nb, s) == Live(a, na, s)
    decreases |a|
  {
    hide Entry;
    if |a| != 0 {
      var n := |a| - 1;
      if |b| == |a| {
        LiveOfCut(Below(a), na[..n], Below(b), nb[..n], s);
      } else {
        LiveOfCut(Below(a), na[..n], b, nb, s);
        assert Live(Below(a), na[..n], s) + [] == Live(Below(a), na[..n], s);
      }
    }
  }

  lemma NoLive(stack: Stack, notes: seq<Note>, s: LuaState)
    requires |notes| == |stack| && forall i :: 0 <= i < |stack| ==> Entry(stack[i], notes[i], s) == []
    ensures Live(stack, notes, s) == []
  {
    LiveOfCut(stack, notes, [], [], s);
  }

  lemma LiveOfPush(stack: Stack, notes: seq<Note>, frame: Frame, note: Note, s: LuaState)
    requires |notes| == |stack|
    ensures Live(stack + [frame], notes + [note], s) == Live(stack, notes, s) + Entry(frame, note, s)
  {
    hide Entry;
    PushFrame(stack, frame);
    assert (notes + [note])[..|notes|] == notes;
  }

  /** Frames left or replaced by frames like them keep what is known of the records' owners. */
  lemma CutKeepsFrames(a: Stack, na: seq<Note>, b: Stack, nb: seq<Note>)
    requires |na| == |a| && |nb| == |b| <= |a| && nb == na[..|b|] && AlikeUpTo(a, b, |b|)
    requires Framed(a, na)
    ensures Framed(b, nb)
  {
    hide Entry, Started;
    forall i, s | 0 <= i < |b| ensures Entry(a[i], na[i], s) == Entry(b[i], nb[i], s)
    ensures Started(a[i], na[i], s) == Started(b[i], nb[i], s) {
      AlikeEntries(a[i], b[i], na[i], s);
    }
    forall j, s: LuaState | 0 <= j < |b| && Entry(b[j], nb[j], s) != []
      ensures exists i :: 0 <= i < j && Started(b[i], nb[i], s)
    {
      assert Entry(a[j], na[j], s) != [];
      var i :| 0 <= i < j && Started(a[i], na[i], s);
      assert Started(b[i], nb[i], s);
    }
    forall i | 0 <= i < |b| ensures MarkedAt(b, nb, i) {
      assert MarkedAt(a, na, i);
      assert Alike(a[i], b[i]) && (0 < i ==> Alike(a[i - 1], b[i - 1]));
    }
    assert forall i :: 0 <= i < |b| ==> Alike(a[i], b[i]);
  }

  lemma PushKeepsFrames(stack: Stack, notes: seq<Note>, frame: Frame, note: Note)
    requires |notes| == |stack| && forall s: LuaState :: !Started(frame, note, s)
    requires Framed(stack, notes)
    requires forall s: LuaState :: Entry(frame, note, s) != [] ==>
               exists i :: 0 <= i < |stack| && Started(stack[i], notes[i], s)
    requires stack != [] && Last(stack).Driver? && Last(stack).kind == ResumeDriver && !notes[|notes| - 1].started ==>
               Barrier(frame)
    requires frame.Driver? && frame.kind == CallDriver && frame.checkpoint.yieldable ==>
               note.registered || (stack != [] && Last(stack).Pcall?)
    ensures Framed(stack + [frame], notes + [note])
  {
    hide Entry;
    var a, na := stack + [frame], notes + [note];
    forall j, s: LuaState | 0 <= j < |a| && Entry(a[j], na[j], s) != []
      ensures exists i :: 0 <= i < j && Started(a[i], na[i], s)
    {
      if j < |stack| {
        assert Entry(stack[j], notes[j], s) != [];
      }
      var i :| 0 <= i < j && Started(stack[i], notes[i], s);
      assert Started(a[i], na[i], s);
    }
    forall i | 0 <= i < |a| ensures MarkedAt(a, na, i) {
      assert i < |stack| ==> MarkedAt(stack, notes, i);
    }
  }

  lemma {:induction false} Rises(w: World, i: nat, j: nat)
    requires |w.notes| == |w.m.stack| && Level(w) && i <= j <= |w.m.stack|
    ensures DepthAt(w, i) <= DepthAt(w, j)
    decreases j - i
  {
    hide DepthAt;
    if i < j {
      Rises(w, i, j - 1);
      assert LevelAt(w, j - 1);
    }
  }

  /** A step that discards frames without a live record, or changes none. */
  ghost predicate Cuts(w: World, after: World) {
    var n := |after.m.stack|;
    && |w.notes| == |w.m.stack| && n <= |w.m.stack| && after.notes == w.notes[..n]
    && after.records == w.records && AlikeUpTo(w.m.stack, after.m.stack, n)
    && (forall i, s: LuaState :: n <= i < |w.m.stack| ==> Entry(w.m.stack[i], w.notes[i], s) == [])
    && (0 < n ==> w.notes[n - 1].depth <= after.depth)
    && (0 < n && (w.m.stack[n - 1].Callback? || w.m.stack[n - 1].Pcall?) ==> w.notes[n - 1].depth == after.depth)
  }

  lemma CutKeepsLevel(w: World, after: World)
    requires Cuts(w, after) && Level(w)
    ensures Level(after)
  {
    forall i | 0 <= i < |after.m.stack| ensures LevelAt(after, i) {
      assert LevelAt(w, i);
      assert Alike(w.m.stack[i], after.m.stack[i]);
      if 0 < i {
        assert Alike(w.m.stack[i - 1], after.m.stack[i - 1]);
      }
    }
  }

  lemma CutKeeps(w: World, after: World)
    requires Tracked(w) && Cuts(w, after)
    ensures Tracked(after)
  {
    CutKeepsLevel(w, after);
    hide Level, Framed, Entry, Live;
    CutKeepsFrames(w.m.stack, w.notes, after.m.stack, after.notes);
    forall s: LuaState ensures EndsWith(RecordsOf(after, s), Live(after.m.stack, after.notes, s)) {
      forall i | 0 <= i < |after.m.stack|
        ensures Entry(w.m.stack[i], w.notes[i], s) == Entry(after.m.stack[i], after.notes[i], s)
      {
        AlikeEntries(w.m.stack[i], after.m.stack[i], w.notes[i], s);
      }
      LiveOfCut(w.m.stack, w.notes, after.m.stack, after.notes, s);
      assert EndsWith(RecordsOf(w, s), Live(w.m.stack, w.notes, s));
    }
  }

  /** A step that enters a frame, with the record it pushes. */
  ghost predicate Enters(w: World, after: World) {
    var n := |w.m.stack|;
    && |w.notes| == n && |after.m.stack| == |after.notes| == n + 1 && after.depth == w.depth
    && AlikeUpTo(w.m.stack, after.m.stack, n)
    && after.notes[..n] == w.notes && after.notes[n].depth == w.depth
    && (forall s: LuaState :: !Started(after.m.stack[n], after.notes[n], s))
    && (forall s: LuaState ::
          RecordsOf(after, s) == RecordsOf(w, s) + Entry(after.m.stack[n], after.notes[n], s))
    && (forall s: LuaState :: Entry(after.m.stack[n], after.notes[n], s) != [] ==> Running(w, s))
    && (0 < n && w.m.stack[n - 1].Driver? && w.m.stack[n - 1].kind == ResumeDriver && !w.notes[n - 1].started ==>
          Barrier(after.m.stack[n]))
    && (after.m.stack[n].Driver? && after.m.stack[n].kind == CallDriver && after.m.stack[n].checkpoint.yieldable ==>
          after.notes[n].registered || (0 < n && w.m.stack[n - 1].Pcall?))
    && (0 < n && after.m.stack[n].Callback? && w.m.stack[n - 1].Driver? && w.m.stack[n - 1].kind == CallDriver ==>
          w.depth == w.notes[n - 1].depth + 1)
  }

  lemma EnterKeepsLevel(w: World, after: World)
    requires Enters(w, after) && Level(w)
    ensures Level(after)
  {
    hide Entry, Running, Barrier;
    var n := |w.m.stack|;
    assert forall i :: 0 <= i < n ==> after.notes[..n][i] == after.notes[i];
    forall i | 0 <= i < |after.m.stack| ensures LevelAt(after, i) {
      if i < n {
        assert LevelAt(w, i);
        assert Alike(w.m.stack[i], after.m.stack[i]);
      }
      if 0 < i {
        assert Alike(w.m.stack[i - 1], after.m.stack[i - 1]);
      }
    }
  }

  lemma EnterKeepsFrames(w: World, after: World)
    requires Tracked(w) && Enters(w, after)
    ensures Framed(after.m.stack, after.notes)
  {
    hide Entry, Live, Level, LiveOnTop;
    var n := |w.m.stack|;
    var below, frame, note := after.m.stack[..n], after.m.stack[n], after.notes[n];
    assert AlikeUpTo(w.m.stack, below, n);
    assert w.notes == w.notes[..n];
    CutKeepsFrames(w.m.stack, w.notes, below, w.notes);
    forall s: LuaState | Entry(frame, note, s) != []
      ensures exists i :: 0 <= i < n && Started(below[i], w.notes[i], s)
    {
      var i :| 0 <= i < n && Started(w.m.stack[i], w.notes[i], s);
      AlikeEntries(w.m.stack[i], below[i], w.notes[i], s);
    }
    PushKeepsFrames(below, w.notes, frame, note);
    assert after.m.stack == below + [frame] && after.notes == w.notes + [note];
  }

  lemma EnterKeeps(w: World, after: World)
    requires Tracked(w) && Enters(w, after)
    ensures Tracked(after)
  {
    EnterKeepsLevel(w, after);
    EnterKeepsFrames(w, after);
    hide Entry, Live, Level, Framed, Running;
    var n := |w.m.stack|;
    var below, frame, note := after.m.stack[..n], after.m.stack[n], after.notes[n];
    assert after.m.stack == below + [frame] && after.notes == w.notes + [note];
    forall s: LuaState ensures EndsWith(RecordsOf(after, s), Live(after.m.stack, after.notes, s)) {
      forall i | 0 <= i < n ensures Entry(w.m.stack[i], w.notes[i], s) == Entry(below[i], w.notes[i], s) {
        AlikeEntries(w.m.stack[i], below[i], w.notes[i], s);
      }
      LiveOfCut(w.m.stack, w.notes, below, w.notes, s);
      LiveOfPush(below, w.notes, frame, note, s);
      EndsWithPush(RecordsOf(w, s), Live(w.m.stack, w.notes, s), Entry(frame, note, s));
    }
  }

  lemma EndsWithPush(all: seq<Record>, last: seq<Record>, more: seq<Record>)
    requires EndsWith(all, last)
    ensures EndsWith(all + more, last + more)
  {
  }

  /** The innermost frame with a live record has it on top of the records of its state. */
  lemma OwnRecordOnTop(w: World, s: LuaState)
    requires Tracked(w) && w.m.stack != []
    requires Entry(Last(w.m.stack), w.notes[|w.notes| - 1], s) != []
    ensures RecordsOf(w, s) != [] && Entry(Last(w.m.stack), w.notes[|w.notes| - 1], s) == [LastRecord(w, s)]
  {
    hide Level, Framed;
    var all, live := RecordsOf(w, s), Live(w.m.stack, w.notes, s);
    assert EndsWith(all, live);
    assert all[|all| - 1] == all[|all| - |live|..][|live| - 1];
  }

  /** A step that leaves the innermost frame and takes its record off. */
  ghost predicate Leaves(w: World, after: World) {
    && |w.notes| == |w.m.stack| > 0 && after.m.stack == Below(w.m.stack)
    && after.notes == w.notes[..|w.notes| - 1] && after.depth == w.notes[|w.notes| - 1].depth
    && forall s: LuaState ::
         RecordsOf(w, s) == RecordsOf(after, s) + Entry(Last(w.m.stack), w.notes[|w.notes| - 1], s)
  }

  lemma LeaveKeepsLevel(w: World, after: World)
    requires Leaves(w, after) && Level(w)
    ensures Level(after)
  {
    forall i | 0 <= i < |after.m.stack| ensures LevelAt(after, i) {
      assert LevelAt(w, i);
    }
  }

  lemma LeaveKeeps(w: World, after: World)
    requires Tracked(w) && Leaves(w, after)
    ensures Tracked(after)
  {
    LeaveKeepsLevel(w, after);
    hide Entry, Level, Framed;
    CutKeepsFrames(w.m.stack, w.notes, after.m.stack, after.notes);
    forall s: LuaState ensures EndsWith(RecordsOf(after, s), Live(after.m.stack, after.notes, s)) {
      assert EndsWith(RecordsOf(w, s), Live(w.m.stack, w.notes, s));
      EndsWithPop(RecordsOf(after, s), Live(after.m.stack, after.notes, s),
                  Entry(Last(w.m.stack), w.notes[|w.notes| - 1], s));
    }
  }

  lemma EndsWithPop(all: seq<Record>, last: seq<Record>, more: seq<Record>)
    requires EndsWith(all + more, last + more)
    ensures EndsWith(all, last)
  {
    var n := |all| - |last|;
    forall i | 0 <= i < |last| ensures all[n..][i] == last[i] {
      assert (all + more)[n..][i] == (last + more)[i];
    }
  }

  /** The coroutine of the resume driver on top starts, or goes on. */
  ghost predicate Starts(w: World, after: World) {
    && |w.notes| == |w.m.stack| > 0 && after.m.stack == w.m.stack && after.records == w.records
    && after.depth == w.depth
    && after.notes == w.notes[|w.notes| - 1 := w.notes[|w.notes| - 1].(started := true)]
    && Last(w.m.stack).Driver? && Last(w.m.stack).kind == ResumeDriver
    && !Running(w, Last(w.m.stack).checkpoint.state)
  }

  lemma StartKeeps(w: World, after: World)
    requires Tracked(w) && Starts(w, after)
    ensures Tracked(after)
  {
    hide Live;
    var stack, n := w.m.stack, |w.m.stack| - 1;
    forall i, s | 0 <= i <= n ensures Entry(stack[i], w.notes[i], s) == Entry(stack[i], after.notes[i], s)
    ensures Started(stack[i], w.notes[i], s) ==> Started(stack[i], after.notes[i], s) {
    }
    assert Level(after) by {
      forall i | 0 <= i <= n ensures LevelAt(after, i) {
        assert LevelAt(w, i);
      }
    }
    hide Level, Entry;
    forall s: LuaState ensures EndsWith(RecordsOf(after, s), Live(stack, after.notes, s)) {
      LiveOfCut(stack, w.notes, stack, after.notes, s);
      assert EndsWith(RecordsOf(w, s), Live(stack, w.notes, s));
    }
    forall i, j, s: LuaState | 0 <= j < i <= n && Started(stack[i], after.notes[i], s)
      ensures Entry(stack[j], after.notes[j], s) == []
    {
      assert Entry(stack[j], after.notes[j], s) == Entry(stack[j], w.notes[j], s);
      assert i < n ==> Started(stack[i], w.notes[i], s);
    }
    forall i | 0 <= i <= n ensures MarkedAt(stack, after.notes, i) {
      assert MarkedAt(stack, w.notes, i);
    }
    forall j, s: LuaState | 0 <= j <= n && Entry(stack[j], after.notes[j], s) != []
      ensures exists i :: 0 <= i < j && Started(stack[i], after.notes[i], s)
    {
      assert Entry(stack[j], w.notes[j], s) != [];
      var i :| 0 <= i < j && Started(stack[i], w.notes[i], s);
      assert Started(stack[i], after.notes[i], s);
    }
  }

  /** A coroutine yields: its frames above its resume driver are gone, and their records stay. */
  ghost predicate Yields(w: World, after: World, s: LuaState) {
    var n := |after.m.stack|;
    && 0 < n <= |w.m.stack| == |w.notes| && after.m.stack == w.m.stack[..n]
    && Started(w.m.stack[n - 1], w.notes[n - 1], s)
    && after.notes == w.notes[..n][n - 1 := w.notes[n - 1].(started := false)]
    && after.depth == w.notes[n - 1].depth && after.records == w.records
    && forall i, u: LuaState :: n <= i < |w.m.stack| && u != s ==> Entry(w.m.stack[i], w.notes[i], u) == []
  }

  lemma YieldKeepsLive(w: World, after: World, s: LuaState, u: LuaState)
    requires Tracked(w) && Yields(w, after, s)
    ensures EndsWith(RecordsOf(after, u), Live(after.m.stack, after.notes, u))
  {
    hide Live, Level, Covered, Barred, Marked;
    var stack, n := after.m.stack, |after.m.stack|;
    assert forall i :: 0 <= i < n ==> Entry(w.m.stack[i], w.notes[i], u) == Entry(stack[i], after.notes[i], u);
    if u == s {
      assert forall i :: 0 <= i < n - 1 ==> Entry(w.m.stack[i], w.notes[i], s) == [];
      assert Entry(stack[n - 1], after.notes[n - 1], s) == [];
      NoLive(stack, after.notes, s);
    } else {
      hide Entry;
      LiveOfCut(w.m.stack, w.notes, stack, after.notes, u);
      assert EndsWith(RecordsOf(w, u), Live(w.m.stack, w.notes, u));
    }
  }

  lemma YieldKeepsFrames(w: World, after: World, s: LuaState)
    requires Tracked(w) && Yields(w, after, s)
    ensures Tracked(after)
  {
    hide Live;
    var stack, n := after.m.stack, |after.m.stack|;
    assert Level(after) by {
      forall i | 0 <= i < n ensures LevelAt(after, i) {
        assert LevelAt(w, i);
      }
    }
    forall u: LuaState ensures EndsWith(RecordsOf(after, u), Live(stack, after.notes, u)) {
      YieldKeepsLive(w, after, s, u);
    }
    hide Level, LiveOnTop;
    forall i, u | 0 <= i < n ensures Entry(w.m.stack[i], w.notes[i], u) == Entry(stack[i], after.notes[i], u)
    ensures Started(stack[i], after.notes[i], u) ==> Started(w.m.stack[i], w.notes[i], u)
    ensures i < n - 1 ==> Started(stack[i], after.notes[i], u) == Started(w.m.stack[i], w.notes[i], u) {
    }
    forall i | 0 <= i < n ensures MarkedAt(stack, after.notes, i) {
      assert MarkedAt(w.m.stack, w.notes, i);
    }
    hide Entry, Started;
    forall j, u: LuaState | 0 <= j < n && Entry(stack[j], after.notes[j], u) != []
      ensures exists i :: 0 <= i < j && Started(stack[i], after.notes[i], u)
    {
      assert Entry(w.m.stack[j], w.notes[j], u) != [];
      var i :| 0 <= i < j && Started(w.m.stack[i], w.notes[i], u);
      assert Started(stack[i], after.notes[i], u);
    }
  }
}
