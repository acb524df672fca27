/**
 * The driver that closes to-be-closed slots, `rivetlua_b7_close_drive`.
 *
 * `close_next` looks at the topmost marked slot. Preparing its handler can fail: because the
 * value has no `__close` method, because the handler's frame does not fit on the stack, or for
 * the moment, when an allocation fails. The mark then stays, the error is pushed on the Lua
 * stack, and the driver asks again. Once prepared, the mark is removed, the frame is pushed, and
 * the call enters a checkpoint, for which one more place must be had. If the checkpoint is
 * refused the handler does not run, and the refusal is an error like that of a handler that
 * fails: it is pushed in place of the frame. An error that finds no place aborts the process.
 *
 * As in all its uses the driver runs on a live checkpoint of its state.
 */
module CloseDriver {
  import opened Checked

  const MAX_STACK: nat := 1_000_000
  const MIN_STACK: nat := 20
  const ERROR_LUA: nat := 2

  type ErrorClass = c: nat | 0 < c witness 1

  datatype Handler = Returns | Fails(class_: ErrorClass) | Exits

  /**
   * `falsy` slots hold nil or false and are skipped without a call. `hasClose` says whether the
   * value has a `__close` method when the driver comes to it. The allocator decides two things:
   * `glitches` counts the allocation failures that the preparation happens to meet, and `refused`
   * says that the memory for the checkpoint of the call is refused at first and granted for the
   * error right after.
   */
  datatype Slot = Slot(position: nat, falsy: bool, hasClose: bool, glitches: nat, refused: bool, handler: Handler)

  /** `error` is the class of the latest error, 0 if there is none. */
  datatype Event =
    | NotPrepared(class_: ErrorClass)
    | Called(slot: Slot, error: nat)
    | HandlerFailed(class_: ErrorClass)
    | NotCalled(slot: Slot, class_: ErrorClass)

  datatype Status = Running | Finished | Exited | Aborted

  /** `height` is the number of values on the Lua stack. */
  datatype Config = Config(slots: seq<Slot>, tried: nat, height: nat, error: nat, trace: seq<Event>, status: Status)

  /**
   * What does not change during a run: the stack can hold `ceiling` values, and `classes` gives
   * the class recorded for a failed preparation after so many events.
   */
  datatype Setting = Setting(target: nat, ceiling: nat, lua54: bool, classes: nat -> ErrorClass)

  predicate Pending(slots: seq<Slot>, target: nat) {
    slots != [] && target <= slots[|slots| - 1].position
  }

  function Top(slots: seq<Slot>): Slot
    requires slots != []
  {
    slots[|slots| - 1]
  }

  function Rest(slots: seq<Slot>): seq<Slot>
    requires slots != []
  {
    slots[..|slots| - 1]
  }

  /** Lua 5.5 passes the error only if there is one. */
  function Arguments(lua54: bool, hasError: bool): nat { if hasError || lua54 then 2 else 1 }

  /** The height with the handler and its arguments pushed. */
  function FrameTop(s: Setting, height: nat, hasError: bool): nat { height + 1 + Arguments(s.lua54, hasError) }

  /** The frame fits; a stack of exactly the limit is never used up by a frame. */
  predicate FrameFits(s: Setting, height: nat, hasError: bool) {
    var needed := FrameTop(s, height, hasError);
    needed <= MAX_STACK && needed <= s.ceiling && !(needed == MAX_STACK == s.ceiling)
  }

  /** The frame fits, and so does the place that the call's checkpoint reserves above it. */
  predicate CallFits(s: Setting, height: nat, hasError: bool) {
    var needed := FrameTop(s, height, hasError);
    needed <= MAX_STACK && needed < s.ceiling
  }

  predicate AttemptFails(s: Setting, c: Config)
    requires c.slots != []
  {
    var slot := Top(c.slots);
    c.tried < slot.glitches || !slot.hasClose || !FrameFits(s, c.height, 0 < c.error)
  }

  /** One turn of the driver's loop. */
  function Turn(s: Setting, c: Config): Config {
    if c.status != Running then c
    else if !Pending(c.slots, s.target) then c.(status := Finished)
    else
      var slot := Top(c.slots);
      var closed := c.(slots := Rest(c.slots), tried := 0);
      if slot.falsy then closed
      else if AttemptFails(s, c) then
        if s.ceiling <= c.height then c.(status := Aborted)
        else
          var class_ := s.classes(|c.trace|);
          c.(tried := c.tried + 1, height := c.height + 1, error := class_, trace := c.trace + [NotPrepared(class_)])
      else if !CallFits(s, c.height, 0 < c.error) then closed.(status := Aborted)
      else if slot.refused then
        var class_ := s.classes(|c.trace|);
        closed.(height := c.height + 1, error := class_, trace := c.trace + [NotCalled(slot, class_)])
      else
        var called := c.trace + [Called(slot, c.error)];
        match slot.handler
        case Returns => closed.(trace := called)
        case Fails(class_) =>
          closed.(height := c.height + 1, error := class_, trace := called + [HandlerFailed(class_)])
        case Exits => closed.(trace := called, status := Exited)
  }

  function Turns(s: Setting, c: Config, n: nat): Config
    decreases n
  {
    if n == 0 then c else Turns(s, Turn(s, c), n - 1)
  }

  function Begin(slots: seq<Slot>, height: nat, error: nat): Config {
    Config(slots, 0, height, error, [], Running)
  }

  // What closing means: section 3.3.8 of the Lua 5.4 Reference Manual.

  /** The latest error after some events. */
  function Latest(initial: nat, trace: seq<Event>): nat {
    if |trace| == 0 then initial
    else
      match trace[|trace| - 1]
      case NotPrepared(class_) => class_
      case HandlerFailed(class_) => class_
      case NotCalled(_, class_) => class_
      case Called(_, _) => Latest(initial, trace[..|trace| - 1])
  }

  /** The slots whose handler ran, and all that were taken off, with those whose checkpoint was refused. */
  function CalledSlots(trace: seq<Event>): seq<Slot> {
    if |trace| == 0 then []
    else CalledSlots(trace[..|trace| - 1])
         + if trace[|trace| - 1].Called? then [trace[|trace| - 1].slot] else []
  }

  function TakenSlots(trace: seq<Event>): seq<Slot> {
    if |trace| == 0 then []
    else
      var last := trace[|trace| - 1];
      TakenSlots(trace[..|trace| - 1]) + if last.Called? || last.NotCalled? then [last.slot] else []
  }

  /** The slots whose checkpoint is granted. */
  function Granted(slots: seq<Slot>): seq<Slot> {
    if |slots| == 0 then []
    else
      var last := slots[|slots| - 1];
      Granted(slots[..|slots| - 1]) + if last.refused then [] else [last]
  }

  function ErrorsIn(trace: seq<Event>): nat {
    if |trace| == 0 then 0
    else ErrorsIn(trace[..|trace| - 1]) + if trace[|trace| - 1].Called? then 0 else 1
  }

  /** The slots at or above the target that hold a value, topmost first. */
  function ToClose(slots: seq<Slot>, target: nat): seq<Slot>
    decreases |slots|
  {
    if !Pending(slots, target) then []
    else (if Top(slots).falsy then [] else [Top(slots)]) + ToClose(Rest(slots), target)
  }

  function Below(slots: seq<Slot>, target: nat): seq<Slot>
    decreases |slots|
  {
    if Pending(slots, target) then Below(Rest(slots), target) else slots
  }

  // Every turn extends a trace in which each handler was passed the latest error.

  ghost predicate PassesLatest(initial: nat, trace: seq<Event>) {
    forall i :: 0 <= i < |trace| && trace[i].Called? ==> trace[i].error == Latest(initial, trace[..i])
  }

  /**
   * Every error has its cause: a failed handler's class follows directly on the call of that
   * handler, and every other error carries the class recorded at its place.
   */
  predicate Caused(s: Setting, trace: seq<Event>, i: nat)
    requires i < |trace|
  {
    match trace[i]
    case NotPrepared(class_) => class_ == s.classes(i)
    case NotCalled(slot, class_) => slot.refused && class_ == s.classes(i)
    case HandlerFailed(class_) => 0 < i && trace[i - 1].Called? && trace[i - 1].slot.handler == Fails(class_)
    case Called(slot, _) =>
      !slot.refused && (slot.handler.Fails? ==> i + 1 < |trace| && trace[i + 1] == HandlerFailed(slot.handler.class_))
  }

  /** A run exits with the call of a handler that exits, and no such call comes earlier. */
  predicate CallExits(event: Event) { event.Called? && event.slot.handler.Exits? }

  ghost predicate ExitsLast(c: Config) {
    && (c.status == Exited <==> c.trace != [] && CallExits(c.trace[|c.trace| - 1]))
    && forall i :: 0 <= i < |c.trace| - 1 ==> !CallExits(c.trace[i])
  }

  ghost predicate AllCaused(s: Setting, trace: seq<Event>) {
    forall i :: 0 <= i < |trace| ==> Caused(s, trace, i)
  }

  lemma CausedLonger(s: Setting, trace: seq<Event>, more: seq<Event>)
    requires AllCaused(s, trace)
    requires forall i :: |trace| <= i < |trace + more| ==> Caused(s, trace + more, i)
    ensures AllCaused(s, trace + more)
  {
    forall i | 0 <= i < |trace + more| ensures Caused(s, trace + more, i) {
      if i < |trace| {
        assert Caused(s, trace, i);
      }
    }
  }

  lemma TurnExitsLast(s: Setting, c: Config)
    requires ExitsLast(c)
    ensures ExitsLast(Turn(s, c))
  {
    hide FrameFits, CallFits;
    assert c.trace != [] && c.status != Exited ==> !CallExits(c.trace[|c.trace| - 1]);
  }

  lemma TurnIsCaused(s: Setting, c: Config)
    requires AllCaused(s, c.trace)
    ensures AllCaused(s, Turn(s, c).trace)
  {
    hide FrameFits, CallFits;
    var d := Turn(s, c);
    if d.trace != c.trace {
      var more := d.trace[|c.trace|..];
      assert d.trace == c.trace + more;
      CausedLonger(s, c.trace, more);
    }
  }

  /** How a configuration relates to the slots, the height and the error at the start. */
  ghost predicate Consistent(s: Setting, slots: seq<Slot>, height: nat, initial: nat, c: Config) {
    && c.error == Latest(initial, c.trace)
    && PassesLatest(initial, c.trace) && AllCaused(s, c.trace) && ExitsLast(c)
    && c.height == height + ErrorsIn(c.trace) <= s.ceiling
    && Below(c.slots, s.target) == Below(slots, s.target)
    && CalledSlots(c.trace) == Granted(TakenSlots(c.trace))
    && (c.status in {Running, Finished} ==>
          TakenSlots(c.trace) + ToClose(c.slots, s.target) == ToClose(slots, s.target))
    && TakenSlots(c.trace) <= ToClose(slots, s.target)
    && (c.status == Finished ==> c.slots == Below(slots, s.target) && ToClose(c.slots, s.target) == [])
  }

  lemma TraceStep(initial: nat, trace: seq<Event>, event: Event)
    requires PassesLatest(initial, trace) && (event.Called? ==> event.error == Latest(initial, trace))
    ensures PassesLatest(initial, trace + [event])
    ensures Latest(initial, trace + [event]) == if event.Called? then Latest(initial, trace) else event.class_
    ensures CalledSlots(trace + [event]) == CalledSlots(trace) + if event.Called? then [event.slot] else []
    ensures TakenSlots(trace + [event])
            == TakenSlots(trace) + if event.Called? || event.NotCalled? then [event.slot] else []
    ensures ErrorsIn(trace + [event]) == ErrorsIn(trace) + if event.Called? then 0 else 1
  {
    var longer := trace + [event];
    assert longer[..|trace|] == trace;
    forall i | 0 <= i < |longer| && longer[i].Called? ensures longer[i].error == Latest(initial, longer[..i]) {
      if i < |trace| {
        assert longer[..i] == trace[..i];
      }
    }
  }

  lemma GrantedStep(slots: seq<Slot>, slot: Slot)
    ensures Granted(slots + [slot]) == Granted(slots) + if slot.refused then [] else [slot]
  {
    assert (slots + [slot])[..|slots|] == slots;
  }

  /** Taking the next slot off: what was taken and what is left are still the same slots. */
  lemma TakenStep(taken: seq<Slot>, slot: Slot, left: seq<Slot>, all: seq<Slot>)
    requires taken + ([slot] + left) == all
    ensures taken + [slot] + left == all && taken <= all && taken + [slot] <= all && taken + [] == taken
  {
    assert taken + [slot] + left == taken + ([slot] + left);
  }

  lemma TurnIsConsistent(s: Setting, slots: seq<Slot>, height: nat, initial: nat, c: Config)
    requires Consistent(s, slots, height, initial, c)
    ensures Consistent(s, slots, height, initial, Turn(s, c))
  {
    hide PassesLatest, Latest, CalledSlots, TakenSlots, Granted, ErrorsIn, AllCaused, ExitsLast, FrameFits;
    TurnIsCaused(s, c);
    TurnExitsLast(s, c);
    if c.status == Running && Pending(c.slots, s.target) && !Top(c.slots).falsy {
      var slot := Top(c.slots);
      TakenStep(TakenSlots(c.trace), slot, ToClose(Rest(c.slots), s.target), ToClose(slots, s.target));
      assert CalledSlots(c.trace) + [] == CalledSlots(c.trace);
      GrantedStep(TakenSlots(c.trace), slot);
      if AttemptFails(s, c) {
        TraceStep(initial, c.trace, NotPrepared(s.classes(|c.trace|)));
      } else if CallFits(s, c.height, 0 < c.error) && slot.refused {
        TraceStep(initial, c.trace, NotCalled(slot, s.classes(|c.trace|)));
      } else if CallFits(s, c.height, 0 < c.error) {
        CallIsConsistent(s, slots, height, initial, c);
      }
    }
  }

  /** The turn in which a handler runs. */
  lemma CallIsConsistent(s: Setting, slots: seq<Slot>, height: nat, initial: nat, c: Config)
    requires Consistent(s, slots, height, initial, c)
    requires c.status == Running && Pending(c.slots, s.target) && !Top(c.slots).falsy && !Top(c.slots).refused
    requires !AttemptFails(s, c) && CallFits(s, c.height, 0 < c.error)
    ensures Consistent(s, slots, height, initial, Turn(s, c))
  {
    hide PassesLatest, Latest, CalledSlots, TakenSlots, Granted, ErrorsIn, AllCaused, ExitsLast, FrameFits;
    TurnIsCaused(s, c);
    TurnExitsLast(s, c);
    var slot := Top(c.slots);
    TakenStep(TakenSlots(c.trace), slot, ToClose(Rest(c.slots), s.target), ToClose(slots, s.target));
    GrantedStep(TakenSlots(c.trace), slot);
    var called := Called(slot, c.error);
    TraceStep(initial, c.trace, called);
    if slot.handler.Fails? {
      TraceStep(initial, c.trace + [called], HandlerFailed(slot.handler.class_));
      assert CalledSlots(c.trace + [called]) + [] == CalledSlots(c.trace + [called]);
      assert TakenSlots(c.trace + [called]) + [] == TakenSlots(c.trace + [called]);
    }
  }

  lemma {:induction false} TurnsAreConsistent(s: Setting, slots: seq<Slot>, height: nat, initial: nat, c: Config,
      n: nat)
    requires Consistent(s, slots, height, initial, c)
    ensures Consistent(s, slots, height, initial, Turns(s, c, n))
    decreases n
  {
    hide Consistent, Turn;
    if n != 0 {
      TurnIsConsistent(s, slots, height, initial, c);
      TurnsAreConsistent(s, slots, height, initial, Turn(s, c), n - 1);
    }
  }

  lemma BeginIsConsistent(s: Setting, slots: seq<Slot>, height: nat, error: nat)
    requires height <= s.ceiling
    ensures Consistent(s, slots, height, error, Begin(slots, height, error))
  {
  }

  // The loop always ends, and aborts exactly if it comes to a slot that cannot be prepared in
  // the room that is left.

  /** Slot by slot, with `tried` failures of the topmost one behind: the driver gets through. */
  predicate Closable(s: Setting, slots: seq<Slot>, tried: nat, height: nat, hasError: bool)
    decreases |slots|
  {
    Pending(slots, s.target) ==>
      var slot := Top(slots);
      var waits := if tried < slot.glitches then slot.glitches - tried else 0;
      var failed := hasError || 0 < waits;
      if slot.falsy then Closable(s, Rest(slots), 0, height, hasError)
      else
        && slot.hasClose && CallFits(s, height + waits, failed)
        && if slot.refused || slot.handler.Fails? then Closable(s, Rest(slots), 0, height + waits + 1, true)
           else slot.handler.Exits? || Closable(s, Rest(slots), 0, height + waits, failed)
  }

  ghost predicate GetsThrough(s: Setting, c: Config) {
    Closable(s, c.slots, c.tried, c.height, 0 < c.error)
  }

  /** Turns still possible: one for each mark, one for each free place, and the last. */
  function TurnsLeft(s: Setting, c: Config): int { |c.slots| + s.ceiling - c.height + 1 }

  lemma TurnDecides(s: Setting, c: Config)
    requires c.status == Running && c.height <= s.ceiling
    ensures Turn(s, c).status == Running ==>
              && Turn(s, c).height <= s.ceiling && TurnsLeft(s, Turn(s, c)) < TurnsLeft(s, c)
              && (GetsThrough(s, Turn(s, c)) <==> GetsThrough(s, c))
    ensures Turn(s, c).status == Aborted ==> !GetsThrough(s, c)
    ensures Turn(s, c).status in {Finished, Exited} ==> GetsThrough(s, c)
  {
  }

  lemma {:induction false} EndedStays(s: Setting, c: Config, n: nat)
    requires c.status != Running
    ensures Turns(s, c, n) == c
    decreases n
  {
    if n != 0 {
      EndedStays(s, c, n - 1);
    }
  }

  lemma {:induction false} EndsInTime(s: Setting, c: Config, n: nat)
    requires c.height <= s.ceiling && c.status == Running && TurnsLeft(s, c) <= n
    ensures var last := Turns(s, c, n);
            last.status != Running && (last.status == Aborted <==> !GetsThrough(s, c))
    decreases n
  {
    hide Turn, GetsThrough;
    TurnDecides(s, c);
    var d := Turn(s, c);
    if d.status == Running {
      EndsInTime(s, d, n - 1);
    } else {
      EndedStays(s, d, n - 1);
    }
  }

  /**
   * The class of the last error, read off the slots to close: `tried` preparations of the first
   * one have failed, `n` events have happened, and `error` is the class so far.
   */
  function LastClass(s: Setting, values: seq<Slot>, tried: nat, n: nat, error: nat): nat
    decreases |values|
  {
    if values == [] then error
    else
      var slot := values[0];
      var waits := if tried < slot.glitches then slot.glitches - tried else 0;
      var waited := if waits == 0 then error else s.classes(n + waits - 1);
      if slot.refused then LastClass(s, values[1..], 0, n + waits + 1, s.classes(n + waits))
      else
        match slot.handler
        case Returns => LastClass(s, values[1..], 0, n + waits + 1, waited)
        case Fails(class_) => LastClass(s, values[1..], 0, n + waits + 2, class_)
        case Exits => waited
  }

  function LastClassOf(s: Setting, c: Config): nat {
    LastClass(s, ToClose(c.slots, s.target), c.tried, |c.trace|, c.error)
  }

  /** Only a slot that holds a value is tried more than once. */
  predicate Trying(s: Setting, c: Config) {
    c.tried == 0 || (Pending(c.slots, s.target) && !Top(c.slots).falsy)
  }

  /** A turn that does not lead to an abort keeps the class that the run will end with. */
  lemma TurnKeepsLastClass(s: Setting, c: Config)
    requires c.status == Running && Trying(s, c) && GetsThrough(s, c)
    ensures Trying(s, Turn(s, c))
    ensures Turn(s, c).status == Running ==> LastClassOf(s, Turn(s, c)) == LastClassOf(s, c)
    ensures Turn(s, c).status == Finished ==> Turn(s, c).error == LastClassOf(s, c)
  {
    if Pending(c.slots, s.target) {
      var rest := ToClose(Rest(c.slots), s.target);
      assert ToClose(c.slots, s.target) == if Top(c.slots).falsy then rest else [Top(c.slots)] + rest;
      if !Top(c.slots).falsy {
        hide ToClose, LastClass;
        LastClassStep(s, Top(c.slots), rest, c.tried, |c.trace|, c.error);
      }
    }
  }

  lemma LastClassStep(s: Setting, slot: Slot, rest: seq<Slot>, tried: nat, n: nat, error: nat)
    ensures ([slot] + rest)[1..] == rest
    ensures tried < slot.glitches ==>
              LastClass(s, [slot] + rest, tried + 1, n + 1, s.classes(n))
              == LastClass(s, [slot] + rest, tried, n, error)
    ensures slot.glitches <= tried ==>
              LastClass(s, [slot] + rest, tried, n, error)
              == if slot.refused then LastClass(s, rest, 0, n + 1, s.classes(n))
                 else match slot.handler
                      case Returns => LastClass(s, rest, 0, n + 1, error)
                      case Fails(class_) => LastClass(s, rest, 0, n + 2, class_)
                      case Exits => error
  {
    assert ([slot] + rest)[1..] == rest;
  }

  // The same condition without following the run: a bound for each slot that is reached.

  /** The errors that a slot leaves on the stack, and those of several. */
  function ErrorsOf(slot: Slot): nat { slot.glitches + if slot.refused || slot.handler.Fails? then 1 else 0 }

  function Errors(values: seq<Slot>): nat {
    if values == [] then 0 else ErrorsOf(values[0]) + Errors(values[1..])
  }

  predicate Leaves(slot: Slot) { slot.handler.Exits? && !slot.refused }

  /** No handler before this one leaves by a terminal exit. */
  predicate Reached(values: seq<Slot>, i: nat)
    requires i <= |values|
  {
    forall j :: 0 <= j < i ==> !Leaves(values[j])
  }

  /**
   * Every value slot that is reached has a `__close` method, and its handler's frame and one more
   * place fit above the errors pushed by the slots before it and by its own failed preparations.
   */
  predicate Roomy(s: Setting, values: seq<Slot>, height: nat, hasError: bool) {
    forall i :: 0 <= i < |values| && Reached(values, i) ==>
      var errors := Errors(values[..i]) + values[i].glitches;
      values[i].hasClose && CallFits(s, height + errors, hasError || 0 < errors)
  }

  lemma RoomyStep(s: Setting, values: seq<Slot>, height: nat, hasError: bool)
    requires values != []
    ensures var first := values[0];
            var errors := ErrorsOf(first);
            Roomy(s, values, height, hasError) <==>
              && first.hasClose && CallFits(s, height + first.glitches, hasError || 0 < first.glitches)
              && (Leaves(first) || Roomy(s, values[1..], height + errors, hasError || 0 < errors))
  {
    hide CallFits;
    var first := values[0];
    var errors := ErrorsOf(first);
    if Roomy(s, values, height, hasError) {
      assert values[..0] == [] && Reached(values, 0);
      hide Roomy;
      if !Leaves(first) {
        RoomyTail(s, values, height, hasError);
      }
    } else {
      hide Roomy;
      if first.hasClose && CallFits(s, height + first.glitches, hasError || 0 < first.glitches)
         && (Leaves(first) || Roomy(s, values[1..], height + errors, hasError || 0 < errors)) {
        RoomyFromTail(s, values, height, hasError);
      }
    }
  }

  lemma RoomyFromTail(s: Setting, values: seq<Slot>, height: nat, hasError: bool)
    requires values != [] && values[0].hasClose
    requires CallFits(s, height + values[0].glitches, hasError || 0 < values[0].glitches)
    requires var errors := ErrorsOf(values[0]);
             Leaves(values[0]) || Roomy(s, values[1..], height + errors, hasError || 0 < errors)
    ensures Roomy(s, values, height, hasError)
  {
    hide CallFits;
    var rest := values[1..];
    forall i | 0 <= i < |values| && Reached(values, i)
      ensures var errors := Errors(values[..i]) + values[i].glitches;
              values[i].hasClose && CallFits(s, height + errors, hasError || 0 < errors)
    {
      if i == 0 {
        assert values[..0] == [];
      } else {
        assert values[..i][1..] == rest[..i - 1] && values[..i][0] == values[0];
        assert forall j :: 0 <= j < i - 1 ==> rest[j] == values[j + 1];
        assert Reached(rest, i - 1) && values[i] == rest[i - 1];
      }
    }
  }

  lemma RoomyTail(s: Setting, values: seq<Slot>, height: nat, hasError: bool)
    requires values != [] && Roomy(s, values, height, hasError) && !Leaves(values[0])
    ensures var errors := ErrorsOf(values[0]);
            Roomy(s, values[1..], height + errors, hasError || 0 < errors)
  {
    hide CallFits;
    var rest := values[1..];
    forall i | 0 <= i < |rest| && Reached(rest, i)
      ensures var errors := ErrorsOf(values[0]);
              var more := Errors(rest[..i]) + rest[i].glitches;
              rest[i].hasClose && CallFits(s, height + errors + more, hasError || 0 < errors || 0 < more)
    {
      assert values[..i + 1][1..] == rest[..i];
      assert forall j :: 0 <= j < i ==> rest[j] == values[j + 1];
      assert Reached(values, i + 1) && values[i + 1] == rest[i];
    }
  }

  lemma {:induction false} ClosableIsRoomy(s: Setting, slots: seq<Slot>, height: nat, hasError: bool)
    ensures Closable(s, slots, 0, height, hasError) <==> Roomy(s, ToClose(slots, s.target), height, hasError)
    decreases |slots|
  {
    hide CallFits, Roomy;
    if !Pending(slots, s.target) {
      NothingIsRoomy(s, height, hasError);
    } else {
      var slot, rest := Top(slots), Rest(slots);
      if slot.falsy {
        ClosableIsRoomy(s, rest, height, hasError);
        assert [] + ToClose(rest, s.target) == ToClose(rest, s.target);
      } else {
        var values := ToClose(slots, s.target);
        assert values[0] == slot && values[1..] == ToClose(rest, s.target);
        RoomyStep(s, values, height, hasError);
        ClosableIsRoomy(s, rest, height + ErrorsOf(slot), hasError || 0 < ErrorsOf(slot));
      }
    }
  }

  lemma NothingIsRoomy(s: Setting, height: nat, hasError: bool)
    ensures Roomy(s, [], height, hasError)
  {
  }

  /**
   * The driver always ends, after at most one turn for each mark and each free place on the
   * stack and one more; and it aborts if and only if some slot that it reaches has no `__close`
   * method or cannot have its frame and a checkpoint in the room that the errors leave.
   */
  lemma AlwaysEnds(s: Setting, slots: seq<Slot>, height: nat, error: nat)
    requires height <= s.ceiling
    ensures var last := Turns(s, Begin(slots, height, error), |slots| + s.ceiling - height + 1);
            && last.status != Running
            && (last.status == Aborted <==> !Roomy(s, ToClose(slots, s.target), height, 0 < error))
  {
    hide Turns, Closable, Roomy;
    EndsInTime(s, Begin(slots, height, error), |slots| + s.ceiling - height + 1);
    ClosableIsRoomy(s, slots, height, 0 < error);
  }

  lemma {:induction false} MissingTurns(s: Setting, c: Config, n: nat)
    requires c.status == Running && Pending(c.slots, s.target) && c.height <= s.ceiling
    requires !Top(c.slots).falsy && !Top(c.slots).hasClose
    ensures var d := Turns(s, c, n);
            d.slots == c.slots && d.status == if n <= s.ceiling - c.height then Running else Aborted
    decreases n
  {
    if n != 0 {
      var d := Turn(s, c);
      if d.status == Running {
        MissingTurns(s, d, n - 1);
      } else {
        EndedStays(s, d, n - 1);
      }
    }
  }

  /**
   * A value on top without a `__close` method: the driver runs as many turns as there are free
   * places on the stack, keeps the mark, and aborts in the next turn.
   */
  lemma MissingMethodAborts(s: Setting, slots: seq<Slot>, height: nat, error: nat)
    requires Pending(slots, s.target) && height <= s.ceiling
    requires !Top(slots).falsy && !Top(slots).hasClose
    ensures Turns(s, Begin(slots, height, error), s.ceiling - height).status == Running
    ensures Turns(s, Begin(slots, height, error), s.ceiling - height + 1).status == Aborted
    ensures Turns(s, Begin(slots, height, error), s.ceiling - height + 1).slots == slots
  {
    hide Turns;
    MissingTurns(s, Begin(slots, height, error), s.ceiling - height);
    MissingTurns(s, Begin(slots, height, error), s.ceiling - height + 1);
  }

  /**
   * A frame that exactly fills the room there is: the mark is removed, the checkpoint refused, and
   * the error finds no place either. The driver aborts although the handler could be prepared.
   */
  lemma ExactFitAborts(s: Setting, slots: seq<Slot>, height: nat, error: nat)
    requires Pending(slots, s.target) && !Top(slots).falsy && Top(slots).hasClose && Top(slots).glitches == 0
    requires FrameTop(s, height, 0 < error) == s.ceiling < MAX_STACK
    ensures var d := Turns(s, Begin(slots, height, error), 1);
            d.status == Aborted && d.slots == Rest(slots) && d.trace == []
  {
    var c := Begin(slots, height, error);
    assert Turns(s, Turn(s, c), 0) == Turn(s, c);
  }

  /** Forty places: Lua 5.4 always passes two arguments, Lua 5.5 only after an error. */
  lemma ExactFitExample(classes: nat -> ErrorClass)
    ensures var slots := [Slot(0, false, true, 0, false, Returns)];
            var lua54, lua55 := Setting(0, 40, true, classes), Setting(0, 40, false, classes);
            && Turns(lua54, Begin(slots, 37, 0), 1).status == Aborted
            && Turns(lua55, Begin(slots, 37, 2), 1).status == Aborted
            && Turns(lua55, Begin(slots, 38, 0), 1).status == Aborted
            && Turns(lua55, Begin(slots, 37, 0), 1).trace == [Called(slots[0], 0)]
  {
    var slots := [Slot(0, false, true, 0, false, Returns)];
    var lua54, lua55 := Setting(0, 40, true, classes), Setting(0, 40, false, classes);
    ExactFitAborts(lua54, slots, 37, 0);
    ExactFitAborts(lua55, slots, 37, 2);
    ExactFitAborts(lua55, slots, 38, 0);
    var c := Begin(slots, 37, 0);
    assert Turns(lua55, Turn(lua55, c), 0) == Turn(lua55, c);
  }

  // The same over the stack's storage: capacity, growth, and a machine that grants up to `memory`.

  /**
   * The capacity `prepare_capacity` asks for: doubled up to the limit, where one place is added
   * for an error.
   */
  function Reserved(required: nat, capacity: nat): nat {
    var logical := Min(Max(Max(required, 2 * capacity), MIN_STACK), MAX_STACK);
    logical + if logical == MAX_STACK then 1 else 0
  }

  /** `ensure_capacity`: the new capacity, unless the limit or the machine forbids it. */
  function Grow(required: nat, capacity: nat, memory: nat): Option<nat> {
    if MAX_STACK < required then None
    else if required <= capacity && !(required == MAX_STACK == capacity) then Some(capacity)
    else
      var asked := Reserved(required, capacity);
      if asked <= memory then Some(asked) else None
  }

  /** A place for an error at the top: a free one, or a new one. */
  function PlaceForError(height: nat, capacity: nat, memory: nat): Option<nat> {
    if height < capacity then Some(capacity) else Grow(height + 1, capacity, memory)
  }

  /** A place for a checkpoint; at the limit only the one kept for errors will do. */
  function PlaceForCheckpoint(height: nat, capacity: nat, memory: nat): Option<nat> {
    if height != MAX_STACK then Grow(height + 1, capacity, memory)
    else if height < capacity then Some(capacity)
    else None
  }

  /** The capacity to which doubling can lead. */
  function Ceiling(capacity: nat, memory: nat): nat
    decreases if MAX_STACK <= capacity then 0 else MAX_STACK - capacity
  {
    if MAX_STACK <= capacity then capacity
    else
      var asked := Reserved(capacity + 1, capacity);
      if asked <= memory then Ceiling(asked, memory) else capacity
  }

  lemma {:induction false} CeilingBounds(capacity: nat, memory: nat)
    requires capacity != MAX_STACK
    ensures capacity <= Ceiling(capacity, memory) != MAX_STACK
    ensures capacity < MAX_STACK < memory ==> Ceiling(capacity, memory) == MAX_STACK + 1
    decreases if MAX_STACK <= capacity then 0 else MAX_STACK - capacity
  {
    if capacity < MAX_STACK {
      var asked := Reserved(capacity + 1, capacity);
      if asked <= memory {
        CeilingBounds(asked, memory);
      }
    }
  }

  function Doubled(capacity: nat, times: nat): nat
    decreases times
  {
    if times == 0 then capacity else Doubled(2 * capacity, times - 1)
  }

  /**
   * A stack of the usual size doubles until the next doubling is refused, or until it has the
   * whole limit and one place more.
   */
  lemma {:induction false} CeilingIsDoubled(capacity: nat, memory: nat) returns (times: nat)
    requires MIN_STACK <= capacity < MAX_STACK
    ensures var ceiling := Ceiling(capacity, memory);
            if ceiling < MAX_STACK then
              && ceiling == Doubled(capacity, times)
              && memory < if 2 * ceiling < MAX_STACK then 2 * ceiling else MAX_STACK + 1
            else ceiling == MAX_STACK + 1 <= memory
    decreases MAX_STACK - capacity
  {
    var asked := Reserved(capacity + 1, capacity);
    times := 0;
    if asked <= memory && asked < MAX_STACK {
      var more := CeilingIsDoubled(asked, memory);
      times := more + 1;
    }
  }

  /** A few places more can be had exactly if they are below the ceiling, which then stays. */
  lemma GrowthFollowsCeiling(required: nat, capacity: nat, memory: nat)
    requires capacity != MAX_STACK && required <= capacity + 4 && required <= MAX_STACK
    ensures var grown := Grow(required, capacity, memory);
            && (grown.Some? <==> required <= Ceiling(capacity, memory))
            && (grown.Some? ==>
                  && required <= grown.value && capacity <= grown.value != MAX_STACK
                  && Ceiling(grown.value, memory) == Ceiling(capacity, memory))
  {
    CeilingBounds(capacity, memory);
    if capacity < required {
      var asked := Reserved(required, capacity);
      assert asked == Reserved(capacity + 1, capacity);
      if asked <= memory {
        CeilingBounds(asked, memory);
      }
    }
  }

  lemma PlacesFollowCeiling(height: nat, capacity: nat, memory: nat)
    requires height <= capacity != MAX_STACK
    ensures var place := PlaceForError(height, capacity, memory);
            && (place.Some? <==> height < Ceiling(capacity, memory))
            && (place.Some? ==>
                  && height < place.value && capacity <= place.value != MAX_STACK
                  && Ceiling(place.value, memory) == Ceiling(capacity, memory))
    ensures var place := PlaceForCheckpoint(height, capacity, memory);
            height <= MAX_STACK ==>
              && (place.Some? <==> height < Ceiling(capacity, memory))
              && (place.Some? ==>
                    && height < place.value && capacity <= place.value != MAX_STACK
                    && Ceiling(place.value, memory) == Ceiling(capacity, memory))
  {
    hide Ceiling, Grow;
    CeilingBounds(capacity, memory);
    if height < MAX_STACK {
      GrowthFollowsCeiling(height + 1, capacity, memory);
      GrowsWithinCapacity(height + 1, capacity, memory);
    } else if MAX_STACK < height {
      NoGrowthAtLimit(height + 1, capacity, memory);
    }
  }

  lemma GrowsWithinCapacity(required: nat, capacity: nat, memory: nat)
    ensures required <= capacity != MAX_STACK && required <= MAX_STACK ==>
              Grow(required, capacity, memory) == Some(capacity)
  {
  }

  lemma NoGrowthAtLimit(required: nat, capacity: nat, memory: nat)
    requires MAX_STACK < required
    ensures Grow(required, capacity, memory) == None
    ensures MAX_STACK <= capacity ==> Ceiling(capacity, memory) == capacity
  {
  }

  datatype Stored = Stored(config: Config, capacity: nat)

  /** One turn over the storage: every place is asked for where the program asks for it. */
  function StorageTurn(s: Setting, memory: nat, m: Stored): Stored {
    var c := m.config;
    if c.status != Running then m
    else if !Pending(c.slots, s.target) then m.(config := c.(status := Finished))
    else
      var slot := Top(c.slots);
      var closed := c.(slots := Rest(c.slots), tried := 0);
      var needed := FrameTop(s, c.height, 0 < c.error);
      var class_ := s.classes(|c.trace|);
      if slot.falsy then m.(config := closed)
      else
        var frame := if c.tried < slot.glitches || !slot.hasClose then None else Grow(needed, m.capacity, memory);
        if frame.None? then
          var place := PlaceForError(c.height, m.capacity, memory);
          if place.None? then m.(config := c.(status := Aborted))
          else
            Stored(c.(tried := c.tried + 1, height := c.height + 1, error := class_,
                      trace := c.trace + [NotPrepared(class_)]),
                   place.value)
        else
          var checkpoint := PlaceForCheckpoint(needed, frame.value, memory);
          if checkpoint.None? || slot.refused then
            var place := PlaceForError(needed, frame.value, memory);
            if place.None? then Stored(closed.(status := Aborted), frame.value)
            else
              Stored(closed.(height := c.height + 1, error := class_, trace := c.trace + [NotCalled(slot, class_)]),
                     place.value)
          else
            var called := c.trace + [Called(slot, c.error)];
            Stored(match slot.handler
                   case Returns => closed.(trace := called)
                   case Fails(failure) =>
                     closed.(height := c.height + 1, error := failure, trace := called + [HandlerFailed(failure)])
                   case Exits => closed.(trace := called, status := Exited),
                   checkpoint.value)
  }

  /**
   * The stack is within its capacity, from which `ceiling` can be reached and no more. Growth
   * never asks for exactly the limit, because at the limit it asks for one place more.
   */
  predicate WellStored(s: Setting, memory: nat, m: Stored) {
    m.config.height <= m.capacity != MAX_STACK && Ceiling(m.capacity, memory) == s.ceiling
  }

  /** Asking for each place when it is needed comes to the same as comparing with the ceiling. */
  lemma StorageTurnIsTurn(s: Setting, memory: nat, m: Stored)
    requires WellStored(s, memory, m)
    ensures StorageTurn(s, memory, m).config == Turn(s, m.config)
    ensures WellStored(s, memory, StorageTurn(s, memory, m))
  {
    hide Grow, PlaceForError, PlaceForCheckpoint, Ceiling;
    var c := m.config;
    CeilingBounds(m.capacity, memory);
    if c.status == Running && Pending(c.slots, s.target) && !Top(c.slots).falsy {
      var needed := FrameTop(s, c.height, 0 < c.error);
      PlacesFollowCeiling(c.height, m.capacity, memory);
      if needed <= MAX_STACK {
        GrowthFollowsCeiling(needed, m.capacity, memory);
        var frame := Grow(needed, m.capacity, memory);
        if frame.Some? {
          PlacesFollowCeiling(needed, frame.value, memory);
        }
      } else {
        NoGrowthAtLimit(needed, m.capacity, memory);
      }
    }
  }

  function StorageTurns(s: Setting, memory: nat, m: Stored, n: nat): Stored
    decreases n
  {
    if n == 0 then m else StorageTurns(s, memory, StorageTurn(s, memory, m), n - 1)
  }

  lemma {:induction false} StorageTurnsAreTurns(s: Setting, memory: nat, m: Stored, n: nat)
    requires WellStored(s, memory, m)
    ensures StorageTurns(s, memory, m, n).config == Turns(s, m.config, n)
    decreases n
  {
    hide StorageTurn, Turn, WellStored;
    if n != 0 {
      StorageTurnIsTurn(s, memory, m);
      StorageTurnsAreTurns(s, memory, StorageTurn(s, memory, m), n - 1);
    }
  }

  /**
   * From the capacity at entry and the memory of the machine: the driver ends, and aborts if and
   * only if the slots do not fit below the ceiling to which that capacity can grow.
   */
  lemma EndsFromCapacity(s: Setting, memory: nat, slots: seq<Slot>, height: nat, error: nat, capacity: nat)
    requires height <= capacity != MAX_STACK && s.ceiling == Ceiling(capacity, memory)
    ensures height <= s.ceiling
    ensures var m := Stored(Begin(slots, height, error), capacity);
            var last := StorageTurns(s, memory, m, |slots| + s.ceiling - height + 1).config;
            && last.status != Running
            && (last.status == Aborted <==> !Roomy(s, ToClose(slots, s.target), height, 0 < error))
  {
    hide StorageTurns, Turns, Roomy, Ceiling;
    CeilingBounds(capacity, memory);
    AlwaysEnds(s, slots, height, error);
    StorageTurnsAreTurns(s, memory, Stored(Begin(slots, height, error), capacity), |slots| + s.ceiling - height + 1);
  }

  /** With memory for the whole stack, only the limit matters: a frame fits exactly if it ends at or below it. */
  lemma LimitDecides(s: Setting, memory: nat, capacity: nat, height: nat, hasError: bool)
    requires capacity < MAX_STACK < memory && s.ceiling == Ceiling(capacity, memory)
    ensures s.ceiling == MAX_STACK + 1
    ensures CallFits(s, height, hasError) <==> FrameTop(s, height, hasError) <= MAX_STACK
  {
    CeilingBounds(capacity, memory);
  }

  // The driver itself.

  /**
   * `close_drive`, outside its single-slot mode; `trim` is the height it leaves when it raises.
   * Unless it aborts or exits, every value slot at or above the target is taken off once, topmost
   * first, and its handler called unless its checkpoint was refused; the slots below stay, every
   * handler gets the latest error, and the result is the negated class of the last error, or 0.
   */
  method CloseDrive(s: Setting, slots: seq<Slot>, height: nat, trim: nat, initialClass: nat)
    returns (result: int, status: Status, left: seq<Slot>, trace: seq<Event>, top: nat)
    requires height <= s.ceiling && trim <= height && (0 < initialClass ==> trim < height)
    ensures status in {Finished, Exited, Aborted}
    ensures status == Aborted <==> !Roomy(s, ToClose(slots, s.target), height, 0 < initialClass)
    ensures PassesLatest(initialClass, trace) && AllCaused(s, trace)
    ensures TakenSlots(trace) <= ToClose(slots, s.target) && CalledSlots(trace) == Granted(TakenSlots(trace))
    ensures status == Finished ==> TakenSlots(trace) == ToClose(slots, s.target) && left == Below(slots, s.target)
    ensures status == Finished ==> result == 0 - LastClass(s, ToClose(slots, s.target), 0, 0, initialClass)
    ensures status == Finished ==> result == 0 - Latest(initialClass, trace)
    ensures status == Finished ==> top == if result == 0 then height else trim
    ensures status == Exited ==> result == 0 - ERROR_LUA
    ensures status == Exited <==> exists slot :: slot in CalledSlots(trace) && slot.handler.Exits?
  {
    hide PassesLatest, CalledSlots, TakenSlots, Granted, ToClose, Below, Latest, ErrorsIn;
    hide Closable, Roomy, FrameFits, CallFits, Consistent, GetsThrough, AllCaused, ExitsLast;
    hide LastClass, LastClassOf, Trying;
    var c := Begin(slots, height, initialClass);
    BeginIsConsistent(s, slots, height, initialClass);
    BeginGetsThrough(s, slots, height, initialClass);
    ConsistentMeans(s, slots, height, initialClass, c);
    while c.status == Running
      invariant Consistent(s, slots, height, initialClass, c) && c.height <= s.ceiling
      invariant Decided(s, slots, height, initialClass, c)
      decreases if c.status == Running then TurnsLeft(s, c) else 0
    {
      TurnIsConsistent(s, slots, height, initialClass, c);
      TurnDecides(s, c);
      TurnKeepsDecided(s, slots, height, initialClass, c);
      ConsistentMeans(s, slots, height, initialClass, Turn(s, c));
      c := DriveOnce(s, c);
    }
    ConsistentMeans(s, slots, height, initialClass, c);
    NoErrorNoPush(initialClass, c.trace);
    ExitIsCalled(c);
    result := match c.status case Exited => 0 - ERROR_LUA case _ => 0 - c.error;
    status, left, trace := c.status, c.slots, c.trace;
    assert status == Finished && c.error != 0 ==> trim < c.height;
    top := if c.error == 0 then c.height else trim;
  }

  /** What the outcome has to do with the room there was and with the slots: open while the loop runs. */
  ghost predicate Decided(s: Setting, slots: seq<Slot>, height: nat, initial: nat, c: Config) {
    var values := ToClose(slots, s.target);
    var roomy, last := Roomy(s, values, height, 0 < initial), LastClass(s, values, 0, 0, initial);
    match c.status
    case Running => GetsThrough(s, c) == roomy && Trying(s, c) && (roomy ==> LastClassOf(s, c) == last)
    case Aborted => !roomy
    case Finished => roomy && c.error == last
    case Exited => roomy
  }

  lemma BeginGetsThrough(s: Setting, slots: seq<Slot>, height: nat, initial: nat)
    ensures Decided(s, slots, height, initial, Begin(slots, height, initial))
  {
    hide Closable, Roomy, LastClass;
    ClosableIsRoomy(s, slots, height, 0 < initial);
  }

  lemma TurnKeepsDecided(s: Setting, slots: seq<Slot>, height: nat, initial: nat, c: Config)
    requires Decided(s, slots, height, initial, c) && c.status == Running && c.height <= s.ceiling
    ensures Decided(s, slots, height, initial, Turn(s, c))
  {
    hide Roomy, LastClass, GetsThrough, Turn, LastClassOf, Trying;
    TurnDecides(s, c);
    if GetsThrough(s, c) {
      TurnKeepsLastClass(s, c);
    } else {
      TurnKeepsTrying(s, c);
    }
  }

  lemma TurnKeepsTrying(s: Setting, c: Config)
    requires Trying(s, c)
    ensures Trying(s, Turn(s, c))
  {
  }

  lemma ConsistentMeans(s: Setting, slots: seq<Slot>, height: nat, initial: nat, c: Config)
    requires Consistent(s, slots, height, initial, c)
    ensures c.error == Latest(initial, c.trace) && PassesLatest(initial, c.trace) && AllCaused(s, c.trace)
    ensures ExitsLast(c)
    ensures c.height == height + ErrorsIn(c.trace) <= s.ceiling
    ensures TakenSlots(c.trace) <= ToClose(slots, s.target) && CalledSlots(c.trace) == Granted(TakenSlots(c.trace))
    ensures c.status == Finished ==>
              TakenSlots(c.trace) == ToClose(slots, s.target) && c.slots == Below(slots, s.target)
  {
  }

  lemma {:induction false} CalledSlotsHold(trace: seq<Event>, slot: Slot)
    ensures slot in CalledSlots(trace) <==> exists i :: 0 <= i < |trace| && trace[i].Called? && trace[i].slot == slot
  {
    if |trace| != 0 {
      var n := |trace| - 1;
      CalledSlotsHold(trace[..n], slot);
      assert forall i :: 0 <= i < n ==> trace[..n][i] == trace[i];
    }
  }

  lemma ExitIsCalled(c: Config)
    requires ExitsLast(c)
    ensures c.status == Exited <==> exists slot :: slot in CalledSlots(c.trace) && slot.handler.Exits?
  {
    hide CalledSlots;
    if c.status == Exited {
      CalledSlotsHold(c.trace, c.trace[|c.trace| - 1].slot);
    }
    forall slot | slot in CalledSlots(c.trace) && slot.handler.Exits? ensures c.status == Exited {
      CalledSlotsHold(c.trace, slot);
      var i :| 0 <= i < |c.trace| && c.trace[i].Called? && c.trace[i].slot == slot;
      assert CallExits(c.trace[i]);
    }
  }

  /** The body of the loop. */
  method DriveOnce(s: Setting, c: Config) returns (next: Config)
    requires c.status == Running
    ensures next == Turn(s, c)
  {
    if !Pending(c.slots, s.target) {
      return c.(status := Finished);
    }
    var slot := Top(c.slots);
    next := c;
    if !slot.falsy && (c.tried < slot.glitches || !slot.hasClose || !FrameFits(s, c.height, 0 < c.error)) {
      if s.ceiling <= c.height {
        return c.(status := Aborted);
      }
      var class_ := s.classes(|c.trace|);
      return c.(tried := c.tried + 1, height := c.height + 1, error := class_,
                trace := c.trace + [NotPrepared(class_)]);
    }
    next := c.(slots := Rest(c.slots), tried := 0);
    if slot.falsy {
      return;
    }
    if !CallFits(s, c.height, 0 < c.error) {
      return next.(status := Aborted);
    }
    if slot.refused {
      var class_ := s.classes(|c.trace|);
      return next.(height := c.height + 1, error := class_, trace := c.trace + [NotCalled(slot, class_)]);
    }
    next := next.(trace := c.trace + [Called(slot, c.error)]);
    match slot.handler {
      case Returns =>
      case Fails(class_) =>
        next := next.(height := c.height + 1, error := class_, trace := next.trace + [HandlerFailed(class_)]);
      case Exits => next := next.(status := Exited);
    }
  }

  /** Without a latest error no error was ever pushed, and a latest error was pushed unless it came first. */
  lemma {:induction false} NoErrorNoPush(initial: nat, trace: seq<Event>)
    ensures Latest(initial, trace) == 0 ==> ErrorsIn(trace) == 0
    ensures initial == 0 && Latest(initial, trace) != 0 ==> 0 < ErrorsIn(trace)
  {
    if |trace| != 0 && trace[|trace| - 1].Called? {
      NoErrorNoPush(initial, trace[..|trace| - 1]);
    }
  }

  // The single-slot mode, `lua_closeslot`.

  /** The topmost mark is the wanted slot, and its preparation succeeds at once. */
  predicate Ready(s: Setting, slots: seq<Slot>, height: nat) {
    && Pending(slots, s.target) && Top(slots).position == s.target && Top(slots).glitches == 0
    && (Top(slots).falsy || (Top(slots).hasClose && FrameFits(s, height, false)))
  }

  /** Its handler runs. */
  predicate Runs(s: Setting, slots: seq<Slot>, height: nat) {
    Ready(s, slots, height) && !Top(slots).falsy && CallFits(s, height, false) && !Top(slots).refused
  }

  /**
   * One slot only. The mark goes exactly if the slot was ready. An error, also the error that
   * there is no such slot, needs a place on the stack; the driver aborts exactly if there is none
   * for it, or none for the checkpoint of a handler that was prepared.
   */
  method CloseOneSlot(s: Setting, slots: seq<Slot>, height: nat)
    returns (result: int, status: Status, left: seq<Slot>)
    requires height <= s.ceiling
    ensures status in {Finished, Exited, Aborted}
    ensures left == if Ready(s, slots, height) then Rest(slots) else slots
    ensures status == Aborted <==>
              if Ready(s, slots, height) then !Top(slots).falsy && !CallFits(s, height, false) else s.ceiling == height
    ensures status == Exited <==> Runs(s, slots, height) && Top(slots).handler.Exits?
    ensures status == Exited ==> result == 0 - ERROR_LUA
    ensures status == Finished ==>
              (result == 0 <==>
                 && Ready(s, slots, height)
                 && (Top(slots).falsy || (Runs(s, slots, height) && Top(slots).handler.Returns?)))
    ensures status == Finished && result != 0 ==>
              result == 0 - if Runs(s, slots, height) && Top(slots).handler.Fails? then Top(slots).handler.class_
                            else s.classes(0)
  {
    if !Pending(slots, s.target) || Top(slots).position != s.target || 0 < Top(slots).glitches
       || (!Top(slots).falsy && (!Top(slots).hasClose || !FrameFits(s, height, false))) {
      if s.ceiling <= height {
        return 0, Aborted, slots;
      }
      return 0 - s.classes(0), Finished, slots;
    }
    var slot := Top(slots);
    left := Rest(slots);
    if slot.falsy {
      return 0, Finished, left;
    }
    if !CallFits(s, height, false) {
      return 0, Aborted, left;
    }
    if slot.refused {
      return 0 - s.classes(0), Finished, left;
    }
    match slot.handler {
      case Returns => return 0, Finished, left;
      case Fails(class_) => return 0 - class_, Finished, left;
      case Exits => return 0 - ERROR_LUA, Exited, left;
    }
  }
}
