/**
 * A compilation against a budget. A sink answers a charge only with yes or no, so what a
 * compilation of a given input does is a fixed list of steps that a refusal or a stage's own
 * error cuts short: charges, some of them inside a stage (numerals while scanning), and stages.
 */
module BudgetSink {
  import Checked
  import ChargedBytes

  datatype Kind = Work | Temporary | Retained

  /** `Fails` is a stage's own error: a diagnostic, or an estimate that was exceeded. */
  datatype Step = Pays(kind: Kind, amount: nat) | Runs(stage: nat) | Fails

  datatype Left = Left(work: nat, temporary: nat, retained: nat) {
    function Of(kind: Kind): nat {
      match kind case Work => work case Temporary => temporary case Retained => retained
    }

    function Less(kind: Kind, amount: nat): Left
      requires amount <= Of(kind)
    {
      match kind
      case Work => this.(work := work - amount)
      case Temporary => this.(temporary := temporary - amount)
      case Retained => this.(retained := retained - amount)
    }
  }

  // The stages of `compile_with_budget`, each with what it pays first and while it runs.

  /** `before` is paid by admissions, `during` while the stage runs. */
  datatype Stage = Stage(before: seq<Step>, during: seq<Step>, succeeds: bool)

  /** `admit`: work, then temporary memory. */
  function Admit(work: nat, temporary: nat): seq<Step> { [Pays(Work, work), Pays(Temporary, temporary)] }

  function StepsFrom(stages: seq<Stage>, index: nat): seq<Step>
    requires index <= |stages|
    decreases |stages| - index
  {
    if index == |stages| then []
    else
      var s := stages[index];
      s.before + [Runs(index)] + s.during + (if s.succeeds then [] else [Fails]) + StepsFrom(stages, index + 1)
  }

  function Steps(stages: seq<Stage>): seq<Step> { StepsFrom(stages, 0) }

  // What a run comes to.

  datatype Outcome = Success | Refused(kind: Kind) | StageFailed

  datatype Run = Run(outcome: Outcome, left: Left, ran: seq<nat>, done: nat)

  /** A counting sink: subtracts while it can. `done` counts the steps before the end. */
  function Execute(steps: seq<Step>, left: Left): Run
    decreases |steps|
  {
    if steps == [] then Run(Success, left, [], 0)
    else
      match steps[0]
      case Pays(kind, amount) =>
        if left.Of(kind) < amount then Run(Refused(kind), left, [], 0)
        else Longer(Execute(steps[1..], left.Less(kind, amount)), [])
      case Runs(stage) => Longer(Execute(steps[1..], left), [stage])
      case Fails => Run(StageFailed, left, [], 0)
  }

  function Longer(r: Run, ran: seq<nat>): Run { Run(r.outcome, r.left, ran + r.ran, r.done + 1) }

  function Total(steps: seq<Step>, kind: Kind): nat
    decreases |steps|
  {
    if steps == [] then 0
    else (if steps[0].Pays? && steps[0].kind == kind then steps[0].amount else 0) + Total(steps[1..], kind)
  }

  function StageTotal(s: Stage, kind: Kind): nat { Total(s.before, kind) + Total(s.during, kind) }

  predicate Affords(left: Left, steps: seq<Step>) {
    forall kind :: Total(steps, kind) <= left.Of(kind)
  }

  predicate NeverFails(steps: seq<Step>) {
    forall i :: 0 <= i < |steps| ==> !steps[i].Fails?
  }

  function StagesIn(steps: seq<Step>): seq<nat>
    decreases |steps|
  {
    if steps == [] then [] else (if steps[0].Runs? then [steps[0].stage] else []) + StagesIn(steps[1..])
  }

  /** Nothing else is charged: what a run took is what its steps ask for. */
  lemma {:induction false} ChargesAreConserved(steps: seq<Step>, left: Left, kind: Kind)
    ensures var r := Execute(steps, left);
            r.done <= |steps| && r.left.Of(kind) + Total(steps[..r.done], kind) == left.Of(kind)
    decreases |steps|
  {
    if steps != [] {
      var r := Execute(steps, left);
      if r.done != 0 {
        var next := if steps[0].Pays? then left.Less(steps[0].kind, steps[0].amount) else left;
        ChargesAreConserved(steps[1..], next, kind);
        assert steps[..r.done][1..] == steps[1..][..r.done - 1];
      }
    }
  }

  /** The stages that ran are those before the step that ended the run; none runs after a refusal. */
  lemma {:induction false} NoStageAfterRefusal(steps: seq<Step>, left: Left)
    ensures var r := Execute(steps, left);
            r.done <= |steps| && r.ran == StagesIn(steps[..r.done])
    ensures var r := Execute(steps, left);
            && (r.outcome.Success? <==> r.done == |steps|)
            && (r.outcome.Refused? ==>
                  steps[r.done].Pays? && steps[r.done].kind == r.outcome.kind
                      && r.left.Of(r.outcome.kind) < steps[r.done].amount)
            && (r.outcome.StageFailed? ==> steps[r.done].Fails?)
    decreases |steps|
  {
    if steps != [] {
      var r := Execute(steps, left);
      if r.done != 0 {
        var next := if steps[0].Pays? then left.Less(steps[0].kind, steps[0].amount) else left;
        NoStageAfterRefusal(steps[1..], next);
        assert steps[..r.done][1..] == steps[1..][..r.done - 1];
      }
    }
  }

  /** A counting sink lets the compilation succeed exactly when each limit covers its total. */
  lemma {:induction false} SucceedsExactlyWithinTotals(steps: seq<Step>, left: Left)
    ensures Execute(steps, left).outcome.Success? <==> NeverFails(steps) && Affords(left, steps)
    decreases |steps|
  {
    if steps != [] {
      var rest := steps[1..];
      assert NeverFails(steps) <==> !steps[0].Fails? && NeverFails(rest);
      if steps[0].Pays? {
        var kind, amount := steps[0].kind, steps[0].amount;
        assert Total(steps, kind) == amount + Total(rest, kind);
        if amount <= left.Of(kind) {
          var next := left.Less(kind, amount);
          SucceedsExactlyWithinTotals(rest, next);
          forall k ensures Total(steps, k) <= left.Of(k) <==> Total(rest, k) <= next.Of(k) {
          }
          assert Affords(left, steps) <==> Affords(next, rest);
        }
      } else {
        SucceedsExactlyWithinTotals(rest, left);
        forall k ensures Total(steps, k) == Total(rest, k) {
        }
        assert Affords(left, steps) <==> Affords(left, rest);
      }
    }
  }

  // The same for the stages of a compilation.

  lemma NeverFailsPlus(a: seq<Step>, b: seq<Step>)
    ensures NeverFails(a + b) <==> NeverFails(a) && NeverFails(b)
  {
    assert forall i :: 0 <= i < |a| ==> (a + b)[i] == a[i];
    assert forall i :: 0 <= i < |b| ==> (a + b)[|a| + i] == b[i];
  }

  /** Only a stage's own verdict can be a failure. */
  predicate Quiet(stages: seq<Stage>) {
    forall i :: 0 <= i < |stages| ==> NeverFails(stages[i].before) && NeverFails(stages[i].during)
  }

  lemma {:induction false} StepsFailWithStages(stages: seq<Stage>, index: nat)
    requires index <= |stages| && Quiet(stages)
    ensures NeverFails(StepsFrom(stages, index)) <==> forall i :: index <= i < |stages| ==> stages[i].succeeds
    decreases |stages| - index
  {
    if index < |stages| {
      var s, rest := stages[index], StepsFrom(stages, index + 1);
      StepsFailWithStages(stages, index + 1);
      var verdict := if s.succeeds then [] else [Fails];
      assert NeverFails(verdict) <==> s.succeeds by {
        assert !s.succeeds ==> verdict[0].Fails?;
      }
      assert NeverFails([Runs(index)]);
      hide NeverFails;
      NeverFailsPlus(s.before + [Runs(index)] + s.during + verdict, rest);
      NeverFailsPlus(s.before + [Runs(index)] + s.during, verdict);
      NeverFailsPlus(s.before + [Runs(index)], s.during);
      NeverFailsPlus(s.before, [Runs(index)]);
    }
  }

  // Which stages run: charges come before the stage that they admit.

  predicate OnlyPays(steps: seq<Step>) {
    forall i :: 0 <= i < |steps| ==> steps[i].Pays?
  }

  /** Admissions and conversions are charges. */
  predicate Orderly(stages: seq<Stage>) {
    forall i :: 0 <= i < |stages| ==> OnlyPays(stages[i].before) && OnlyPays(stages[i].during)
  }

  function After(left: Left, steps: seq<Step>): Left
    requires Affords(left, steps)
  {
    assert Total(steps, Work) <= left.Of(Work) && Total(steps, Temporary) <= left.Of(Temporary);
    assert Total(steps, Retained) <= left.Of(Retained);
    Left(left.work - Total(steps, Work), left.temporary - Total(steps, Temporary),
         left.retained - Total(steps, Retained))
  }

  lemma AffordsStep(left: Left, steps: seq<Step>)
    requires steps != [] && steps[0].Pays?
    ensures Affords(left, steps) <==>
              && steps[0].amount <= left.Of(steps[0].kind)
              && Affords(left.Less(steps[0].kind, steps[0].amount), steps[1..])
    ensures Affords(left, steps) ==>
              After(left, steps) == After(left.Less(steps[0].kind, steps[0].amount), steps[1..])
  {
    var kind, amount := steps[0].kind, steps[0].amount;
    assert Total(steps, kind) == amount + Total(steps[1..], kind);
    if amount <= left.Of(kind) {
      var next := left.Less(kind, amount);
      forall k ensures Total(steps, k) <= left.Of(k) <==> Total(steps[1..], k) <= next.Of(k) {
      }
    }
  }

  /** A list of charges is taken as a whole, or the run ends in it. */
  lemma {:induction false} PayFirst(pays: seq<Step>, rest: seq<Step>, left: Left)
    requires OnlyPays(pays)
    ensures var r := Execute(pays + rest, left);
            if Affords(left, pays) then
              var q := Execute(rest, After(left, pays));
              r.outcome == q.outcome && r.ran == q.ran && r.left == q.left
            else r.ran == [] && r.outcome.Refused? && left.Of(r.outcome.kind) < Total(pays, r.outcome.kind)
    decreases |pays|
  {
    if pays == [] {
      assert pays + rest == rest;
      assert forall kind :: Total(pays, kind) == 0;
    } else {
      var kind, amount := pays[0].kind, pays[0].amount;
      assert (pays + rest)[0] == pays[0] && (pays + rest)[1..] == pays[1..] + rest;
      AffordsStep(left, pays);
      assert Total(pays, kind) == amount + Total(pays[1..], kind);
      if amount <= left.Of(kind) {
        PayFirst(pays[1..], rest, left.Less(kind, amount));
      }
      assert forall run: Run :: Longer(run, []).ran == run.ran;
    }
  }

  /** What has to be paid from stage `from` on until stage `i` may run. */
  function PaidUntil(stages: seq<Stage>, from: nat, i: nat, kind: Kind): nat
    requires from <= i < |stages|
    decreases i - from
  {
    if from == i then Total(stages[i].before, kind)
    else StageTotal(stages[from], kind) + PaidUntil(stages, from + 1, i, kind)
  }

  /** Every stage before it succeeds, and the limits cover every charge up to its own admission. */
  predicate Admissible(stages: seq<Stage>, from: nat, left: Left, i: nat)
    requires from <= i < |stages|
  {
    && (forall j :: from <= j < i ==> stages[j].succeeds)
    && (forall kind :: PaidUntil(stages, from, i, kind) <= left.Of(kind))
  }

  lemma AdmissibleHere(stages: seq<Stage>, from: nat, left: Left)
    requires from < |stages|
    ensures Admissible(stages, from, left, from) <==> Affords(left, stages[from].before)
  {
    assert forall kind :: PaidUntil(stages, from, from, kind) == Total(stages[from].before, kind);
  }

  lemma AdmissibleLater(stages: seq<Stage>, from: nat, left: Left, i: nat)
    requires from < i < |stages|
    ensures var s := stages[from];
            Admissible(stages, from, left, i) <==>
              && s.succeeds && Affords(left, s.before) && Affords(After(left, s.before), s.during)
              && Admissible(stages, from + 1, After(After(left, s.before), s.during), i)
  {
    var s := stages[from];
    assert forall kind ::
        PaidUntil(stages, from, i, kind)
        == Total(s.before, kind) + Total(s.during, kind) + PaidUntil(stages, from + 1, i, kind);
    if Affords(left, s.before) {
      var paid := After(left, s.before);
      assert forall kind :: paid.Of(kind) == left.Of(kind) - Total(s.before, kind);
      if Affords(paid, s.during) {
        assert forall kind :: After(paid, s.during).Of(kind) == paid.Of(kind) - Total(s.during, kind);
      }
    }
  }

  lemma StageSteps(stages: seq<Stage>, from: nat)
    requires from < |stages|
    ensures var s := stages[from];
            StepsFrom(stages, from)
            == s.before + ([Runs(from)] + (s.during + ((if s.succeeds then [] else [Fails])
                                                       + StepsFrom(stages, from + 1))))
  {
  }

  lemma ExecuteRuns(stage: nat, rest: seq<Step>, left: Left)
    ensures Execute([Runs(stage)] + rest, left) == Longer(Execute(rest, left), [stage])
    ensures Execute([Fails] + rest, left) == Run(StageFailed, left, [], 0)
  {
    assert ([Runs(stage)] + rest)[1..] == rest;
  }

  /** The four ways in which a stage can end. */
  lemma StageCases(stages: seq<Stage>, from: nat, left: Left)
    requires from < |stages| && Orderly(stages)
    ensures var s, r := stages[from], Execute(StepsFrom(stages, from), left);
            if !Affords(left, s.before) then
              r.ran == [] && r.outcome.Refused? && left.Of(r.outcome.kind) < Total(s.before, r.outcome.kind)
            else
              var paid := After(left, s.before);
              if !Affords(paid, s.during) then
                r.ran == [from] && r.outcome.Refused? && paid.Of(r.outcome.kind) < Total(s.during, r.outcome.kind)
              else if !s.succeeds then r.ran == [from] && r.outcome.StageFailed?
              else
                var q := Execute(StepsFrom(stages, from + 1), After(paid, s.during));
                r.ran == [from] + q.ran && r.outcome == q.outcome
  {
    hide Execute, Affords, StepsFrom;
    var s := stages[from];
    var verdict := if s.succeeds then [] else [Fails];
    var rest := StepsFrom(stages, from + 1);
    var inside := s.during + (verdict + rest);
    StageSteps(stages, from);
    PayFirst(s.before, [Runs(from)] + inside, left);
    if Affords(left, s.before) {
      var paid := After(left, s.before);
      ExecuteRuns(from, inside, paid);
      PayFirst(s.during, verdict + rest, paid);
      if Affords(paid, s.during) {
        assert s.succeeds ==> verdict + rest == rest;
        ExecuteRuns(from, rest, After(paid, s.during));
      }
    }
  }

  /**
   * From any stage on: the stages that run are an initial segment, and a stage runs if and only
   * if those before it succeed and every charge up to and including its own admission is covered.
   */
  lemma {:induction false} StagesInOrder(stages: seq<Stage>, from: nat, left: Left)
    requires from <= |stages| && Orderly(stages)
    ensures var ran := Execute(StepsFrom(stages, from), left).ran;
            && |ran| <= |stages| - from
            && (forall k :: 0 <= k < |ran| ==> ran[k] == from + k)
            && (forall i :: from <= i < |stages| ==> (i < from + |ran| <==> Admissible(stages, from, left, i)))
    decreases |stages| - from
  {
    hide Execute, Affords, Admissible, StepsFrom, Total;
    if from == |stages| {
      NoStages(stages, left);
    } else {
      var s := stages[from];
      StageCases(stages, from, left);
      AdmissibleHere(stages, from, left);
      if s.succeeds && Affords(left, s.before) && Affords(After(left, s.before), s.during) {
        StagesInOrder(stages, from + 1, After(After(left, s.before), s.during));
      }
      forall i | from < i < |stages| ensures Admissible(stages, from, left, i) <==>
          && s.succeeds && Affords(left, s.before) && Affords(After(left, s.before), s.during)
          && Admissible(stages, from + 1, After(After(left, s.before), s.during), i) {
        AdmissibleLater(stages, from, left, i);
      }
    }
  }

  /** The run ends after the last stage, with the verdict of the last stage that ran, or at a charge too many. */
  predicate EndsRightly(stages: seq<Stage>, from: nat, left: Left, r: Run) {
    var n := from + |r.ran|;
    && n <= |stages|
    && match r.outcome
       case Success => n == |stages|
       case StageFailed => from < n && !stages[n - 1].succeeds
       case Refused(kind) =>
         || (n < |stages| && left.Of(kind) < PaidUntil(stages, from, n, kind))
         || (from < n && left.Of(kind) < PaidUntil(stages, from, n - 1, kind) + Total(stages[n - 1].during, kind))
  }

  lemma {:induction false} StagesEnd(stages: seq<Stage>, from: nat, left: Left)
    requires from <= |stages| && Orderly(stages)
    ensures EndsRightly(stages, from, left, Execute(StepsFrom(stages, from), left))
    decreases |stages| - from
  {
    hide Execute, Affords, StepsFrom, Total;
    if from == |stages| {
      NoStages(stages, left);
    } else {
      var s := stages[from];
      StageCases(stages, from, left);
      if s.succeeds && Affords(left, s.before) && Affords(After(left, s.before), s.during) {
        var next := After(After(left, s.before), s.during);
        StagesEnd(stages, from + 1, next);
        assert forall kind :: next.Of(kind) == left.Of(kind) - Total(s.before, kind) - Total(s.during, kind);
      } else if Affords(left, s.before) {
        assert forall kind :: After(left, s.before).Of(kind) == left.Of(kind) - Total(s.before, kind);
      }
    }
  }

  lemma NoStages(stages: seq<Stage>, left: Left)
    ensures Execute(StepsFrom(stages, |stages|), left) == Run(Success, left, [], 0)
  {
  }

  /** A sink object, like the load path's `CompileMeter` without the machine's own refusals. */
  class Meter {
    var left: Left

    constructor (limits: Left)
      ensures left == limits
    {
      left := limits;
    }

    method Pay(kind: Kind, amount: nat) returns (ok: bool)
      modifies this
      ensures ok <==> amount <= old(left).Of(kind)
      ensures left == if ok then old(left).Less(kind, amount) else old(left)
    {
      if left.Of(kind) < amount {
        return false;
      }
      left := left.Less(kind, amount);
      return true;
    }

    /**
     * `CompileMeter`: memory is also charged to the machine, which may refuse. What the meter
     * subtracted stays subtracted then.
     */
    method PayOn(vm: ChargedBytes.Account, kind: Kind, amount: nat) returns (ok: bool)
      modifies this, vm
      ensures old(left).Of(kind) < amount ==> !ok && left == old(left)
      ensures amount <= old(left).Of(kind) ==> left == old(left).Less(kind, amount)
      ensures amount <= old(left).Of(kind) && (kind == Work || amount == 0) ==> ok
      ensures vm.charged == old(vm.charged) + if ok && kind != Work then amount else 0
    {
      ok := Pay(kind, amount);
      if ok && kind != Work && amount != 0 {
        ok := vm.Reserve(amount);
      }
    }
  }

  /**
   * Runs a compilation. It succeeds exactly if no stage fails and the limits cover the
   * totals; stages run in order up to the first step that is refused or fails.
   */
  method Compile(steps: seq<Step>, sink: Meter) returns (outcome: Outcome, ran: seq<nat>)
    modifies sink
    ensures var r := Execute(steps, old(sink.left)); outcome == r.outcome && ran == r.ran && sink.left == r.left
    ensures outcome.Success? <==> NeverFails(steps) && Affords(old(sink.left), steps)
  {
    hide Execute, NeverFails, Affords;
    SucceedsExactlyWithinTotals(steps, sink.left);
    ran := [];
    var i := 0;
    assert steps[0..] == steps;
    ghost var whole := Execute(steps, sink.left);
    assert [] + whole.ran == whole.ran;
    while i < |steps|
      invariant i <= |steps|
      invariant var r := Execute(steps[i..], sink.left);
                r.outcome == whole.outcome && r.left == whole.left && ran + r.ran == whole.ran
    {
      ExecuteStep(steps, i, sink.left);
      match steps[i] {
        case Pays(kind, amount) =>
          var ok := sink.Pay(kind, amount);
          if !ok {
            assert ran + [] == ran;
            return Refused(kind), ran;
          }
        case Runs(stage) =>
          ghost var rest := Execute(steps[i + 1..], sink.left);
          assert ran + ([stage] + rest.ran) == ran + [stage] + rest.ran;
          ran := ran + [stage];
        case Fails =>
          assert ran + [] == ran;
          return StageFailed, ran;
      }
      i := i + 1;
    }
    ExecuteNothing(steps[i..], sink.left);
    assert ran + [] == ran;
    return Success, ran;
  }

  lemma ExecuteNothing(steps: seq<Step>, left: Left)
    requires |steps| == 0
    ensures Execute(steps, left) == Run(Success, left, [], 0)
  {
  }

  lemma ExecuteStep(steps: seq<Step>, i: nat, left: Left)
    requires i < |steps|
    ensures steps[i].Pays? && steps[i].amount <= left.Of(steps[i].kind) ==>
              Execute(steps[i..], left) == Longer(Execute(steps[i + 1..], left.Less(steps[i].kind, steps[i].amount)),
                  [])
    ensures steps[i].Pays? && left.Of(steps[i].kind) < steps[i].amount ==>
              Execute(steps[i..], left) == Run(Refused(steps[i].kind), left, [], 0)
    ensures steps[i].Runs? ==> Execute(steps[i..], left) == Longer(Execute(steps[i + 1..], left), [steps[i].stage])
    ensures steps[i].Fails? ==> Execute(steps[i..], left) == Run(StageFailed, left, [], 0)
  {
    assert steps[i..][0] == steps[i] && steps[i..][1..] == steps[i + 1..];
  }

  /** If a compilation succeeds without limits, its totals are the least limits with which it succeeds. */
  lemma TotalsAreLeastLimits(stages: seq<Stage>, unlimited: Left, limits: Left)
    requires Execute(Steps(stages), unlimited).outcome.Success?
    ensures Execute(Steps(stages), limits).outcome.Success?
            <==> forall kind :: Total(Steps(stages), kind) <= limits.Of(kind)
    ensures Execute(Steps(stages), limits).outcome.Success? ==>
              Execute(Steps(stages), limits).ran == Execute(Steps(stages), unlimited).ran
  {
    hide Execute, Steps;
    var steps := Steps(stages);
    SucceedsExactlyWithinTotals(steps, unlimited);
    SucceedsExactlyWithinTotals(steps, limits);
    NoStageAfterRefusal(steps, unlimited);
    NoStageAfterRefusal(steps, limits);
  }

  // The order of `compile_with_budget`, with the figures its admission formulas give.

  datatype Admission = Admission(work: nat, temporary: nat, succeeds: bool)

  /**
   * `starts` says that the source is not too long and the first charge does not overflow,
   * `nameFits` the same for the figures between the name lookup and the last admission. `names`
   * is the second walk over the names, which only Lua 5.5 takes; `conversions` are the numerals
   * met while scanning.
   */
  datatype Figures = Figures(
    starts: bool, lex: Admission, conversions: seq<nat>, parse: Admission,
    shapeWork: nat, shapeFits: bool, names: Checked.Option<Admission>, resolve: Admission,
    lowerWork: nat, lowerFits: bool, lower: Admission, candidate: Admission,
    emitWork: nat, emitFits: bool, nameWork: nat, nameFits: bool, emit: Admission, retained: nat)

  function Admitted(a: Admission): Stage { Stage(Admit(a.work, a.temporary), [], a.succeeds) }

  function Walk(work: nat, fits: bool): Stage { Stage([Pays(Work, work)], [], fits) }

  function Conversions(work: seq<nat>): seq<Step> {
    seq(|work|, i requires 0 <= i < |work| => Pays(Work, work[i]))
  }

  /** The checks before the first charge. */
  function Start(f: Figures): seq<Stage> { [Stage([], [], f.starts)] }

  function Front(f: Figures): seq<Stage> {
    [Stage(Admit(f.lex.work, f.lex.temporary), Conversions(f.conversions), f.lex.succeeds), Admitted(f.parse),
     Walk(f.shapeWork, f.shapeFits)]
  }

  function NameWalk(f: Figures): seq<Stage> { if f.names.None? then [] else [Admitted(f.names.value)] }

  function Middle(f: Figures): seq<Stage> { [Admitted(f.resolve), Walk(f.lowerWork, f.lowerFits), Admitted(f.lower)] }

  function Codegen(f: Figures): seq<Stage> {
    [Admitted(f.candidate), Walk(f.emitWork, f.emitFits), Walk(f.nameWork, f.nameFits)]
  }

  function Emission(f: Figures): Stage {
    Stage(Admit(f.emit.work, f.emit.temporary) + [Pays(Retained, f.retained)], [], f.emit.succeeds)
  }

  function Compilation(f: Figures): seq<Stage> {
    Start(f) + Front(f) + NameWalk(f) + Middle(f) + Codegen(f) + [Emission(f)]
  }

  function StagesTotal(stages: seq<Stage>, index: nat, kind: Kind): nat
    requires index <= |stages|
    decreases |stages| - index
  {
    if index == |stages| then 0 else StageTotal(stages[index], kind) + StagesTotal(stages, index + 1, kind)
  }

  lemma {:induction false} TotalPlus(a: seq<Step>, b: seq<Step>, kind: Kind)
    ensures Total(a + b, kind) == Total(a, kind) + Total(b, kind)
    decreases |a|
  {
    if a == [] {
      assert a + b == b;
    } else {
      TotalPlus(a[1..], b, kind);
      assert (a + b)[1..] == a[1..] + b;
    }
  }

  lemma {:induction false} TotalOfSteps(stages: seq<Stage>, index: nat, kind: Kind)
    requires index <= |stages|
    ensures Total(StepsFrom(stages, index), kind) == StagesTotal(stages, index, kind)
    decreases |stages| - index
  {
    if index < |stages| {
      var s, rest := stages[index], StepsFrom(stages, index + 1);
      TotalOfSteps(stages, index + 1, kind);
      var verdict := if s.succeeds then [] else [Fails];
      TotalPlus(s.before, [Runs(index)], kind);
      TotalPlus(s.before + [Runs(index)], s.during, kind);
      TotalPlus(s.before + [Runs(index)] + s.during, verdict, kind);
      TotalPlus(s.before + [Runs(index)] + s.during + verdict, rest, kind);
      assert Total([Runs(index)], kind) == 0 && Total(verdict, kind) == 0;
    }
  }

  function Sum(work: seq<nat>): nat { if work == [] then 0 else work[0] + Sum(work[1..]) }

  lemma {:induction false} ConversionTotal(work: seq<nat>, kind: Kind)
    ensures Total(Conversions(work), kind) == if kind == Work then Sum(work) else 0
    ensures NeverFails(Conversions(work))
  {
    if work != [] {
      ConversionTotal(work[1..], kind);
      assert Conversions(work)[1..] == Conversions(work[1..]);
    }
  }

  function NamesOf(f: Figures): Admission {
    if f.names.None? then Admission(0, 0, true) else f.names.value
  }

  /** Everything a compilation has to pay. */
  function Bill(f: Figures): Left {
    Left(f.lex.work + Sum(f.conversions) + f.parse.work + f.shapeWork + NamesOf(f).work + f.resolve.work
         + f.lowerWork + f.lower.work + f.candidate.work + f.emitWork + f.nameWork + f.emit.work,
         f.lex.temporary + f.parse.temporary + NamesOf(f).temporary + f.resolve.temporary + f.lower.temporary
         + f.candidate.temporary + f.emit.temporary,
         f.retained)
  }

  predicate AllFit(f: Figures) {
    && f.starts && f.lex.succeeds && f.parse.succeeds && f.shapeFits && NamesOf(f).succeeds && f.resolve.succeeds
    && f.lowerFits && f.lower.succeeds && f.candidate.succeeds && f.emitFits && f.nameFits && f.emit.succeeds
  }

  lemma AdmittedTotal(a: Admission, kind: Kind)
    ensures StageTotal(Admitted(a), kind)
            == match kind case Work => a.work case Temporary => a.temporary case Retained => 0
  {
    var before := Admit(a.work, a.temporary);
    var last := before[1..];
    assert last[1..] == [] && Total(last[1..], kind) == 0;
    assert last[0] == Pays(Temporary, a.temporary);
    assert Total(last, kind) == if kind == Temporary then a.temporary else 0;
    assert Total(before, kind) == (if kind == Work then a.work else 0) + Total(last, kind);
  }

  lemma WalkTotal(work: nat, fits: bool, kind: Kind)
    ensures StageTotal(Walk(work, fits), kind) == if kind == Work then work else 0
  {
    var before := [Pays(Work, work)];
    assert before[1..] == [] && Total(before[1..], kind) == 0;
    assert Total(before, kind) == if kind == Work then work else 0;
  }

  lemma EmitTotal(a: Admission, retained: nat, kind: Kind)
    ensures Total(Admit(a.work, a.temporary) + [Pays(Retained, retained)], kind)
            == match kind case Work => a.work case Temporary => a.temporary case Retained => retained
  {
    var last := [Pays(Retained, retained)];
    AdmittedTotal(a, kind);
    TotalPlus(Admit(a.work, a.temporary), last, kind);
    assert last[1..] == [] && Total(last[1..], kind) == 0;
    assert Total(last, kind) == if kind == Retained then retained else 0;
  }

  function SumOver(stages: seq<Stage>, kind: Kind): nat
    decreases |stages|
  {
    if stages == [] then 0 else StageTotal(stages[0], kind) + SumOver(stages[1..], kind)
  }

  lemma {:induction false} SumOverSuffix(stages: seq<Stage>, index: nat, kind: Kind)
    requires index <= |stages|
    ensures StagesTotal(stages, index, kind) == SumOver(stages[index..], kind)
    decreases |stages| - index
  {
    if index < |stages| {
      SumOverSuffix(stages, index + 1, kind);
      assert stages[index..][1..] == stages[index + 1..];
    }
  }

  lemma {:induction false} SumOverPlus(a: seq<Stage>, b: seq<Stage>, kind: Kind)
    ensures SumOver(a + b, kind) == SumOver(a, kind) + SumOver(b, kind)
    decreases |a|
  {
    if a == [] {
      assert a + b == b;
    } else {
      SumOverPlus(a[1..], b, kind);
      assert (a + b)[1..] == a[1..] + b;
    }
  }

  lemma SumOfThree(a: Stage, b: Stage, c: Stage, kind: Kind)
    ensures SumOver([a, b, c], kind) == StageTotal(a, kind) + StageTotal(b, kind) + StageTotal(c, kind)
  {
    hide StageTotal;
    assert [a, b, c] == [a] + [b] + [c];
    SumOverPlus([a] + [b], [c], kind);
    SumOverPlus([a], [b], kind);
    SumOfOne(a, kind);
    SumOfOne(b, kind);
    SumOfOne(c, kind);
  }

  lemma SumOfOne(a: Stage, kind: Kind)
    ensures SumOver([a], kind) == StageTotal(a, kind)
  {
    assert [a][1..] == [];
  }

  lemma FrontTotal(f: Figures, kind: Kind)
    ensures SumOver(Front(f), kind)
            == match kind
               case Work => f.lex.work + Sum(f.conversions) + f.parse.work + f.shapeWork
               case Temporary => f.lex.temporary + f.parse.temporary
               case Retained => 0
  {
    hide SumOver, Conversions, Sum;
    var lex := Stage(Admit(f.lex.work, f.lex.temporary), Conversions(f.conversions), f.lex.succeeds);
    SumOfThree(lex, Admitted(f.parse), Walk(f.shapeWork, f.shapeFits), kind);
    AdmittedTotal(f.lex, kind);
    AdmittedTotal(f.parse, kind);
    WalkTotal(f.shapeWork, f.shapeFits, kind);
    ConversionTotal(f.conversions, kind);
  }

  lemma NameWalkTotal(f: Figures, kind: Kind)
    ensures SumOver(NameWalk(f), kind)
            == match kind case Work => NamesOf(f).work case Temporary => NamesOf(f).temporary case Retained => 0
  {
    hide StageTotal, Admitted;
    if f.names.Some? {
      SumOfOne(Admitted(f.names.value), kind);
      AdmittedTotal(f.names.value, kind);
    }
  }

  lemma BackTotal(f: Figures, kind: Kind)
    ensures SumOver(Middle(f), kind) + SumOver(Codegen(f), kind) + SumOver([Emission(f)], kind)
            == match kind
               case Work =>
                 f.resolve.work + f.lowerWork + f.lower.work + f.candidate.work + f.emitWork + f.nameWork + f.emit.work
               case Temporary => f.resolve.temporary + f.lower.temporary + f.candidate.temporary + f.emit.temporary
               case Retained => f.retained
  {
    hide SumOver, Admit, Admitted, Walk;
    SumOfThree(Admitted(f.resolve), Walk(f.lowerWork, f.lowerFits), Admitted(f.lower), kind);
    SumOfThree(Admitted(f.candidate), Walk(f.emitWork, f.emitFits), Walk(f.nameWork, f.nameFits), kind);
    SumOfOne(Emission(f), kind);
    AdmittedTotal(f.resolve, kind);
    AdmittedTotal(f.lower, kind);
    AdmittedTotal(f.candidate, kind);
    WalkTotal(f.lowerWork, f.lowerFits, kind);
    WalkTotal(f.emitWork, f.emitFits, kind);
    WalkTotal(f.nameWork, f.nameFits, kind);
    EmitTotal(f.emit, f.retained, kind);
  }

  lemma StartTotal(f: Figures, kind: Kind)
    ensures SumOver(Start(f), kind) == 0
  {
    SumOfOne(Stage([], [], f.starts), kind);
  }

  /** The three totals, stage by stage. */
  lemma BillIsTotal(f: Figures, kind: Kind)
    ensures Total(Steps(Compilation(f)), kind) == Bill(f).Of(kind)
  {
    StartTotal(f, kind);
    hide SumOver, Start, Front, NameWalk, Middle, Codegen, Emission, Total, StagesTotal;
    var stages := Compilation(f);
    TotalOfSteps(stages, 0, kind);
    SumOverSuffix(stages, 0, kind);
    assert stages[0..] == stages;
    SumOverPlus(Start(f) + Front(f) + NameWalk(f) + Middle(f) + Codegen(f), [Emission(f)], kind);
    SumOverPlus(Start(f) + Front(f) + NameWalk(f) + Middle(f), Codegen(f), kind);
    SumOverPlus(Start(f) + Front(f) + NameWalk(f), Middle(f), kind);
    SumOverPlus(Start(f) + Front(f), NameWalk(f), kind);
    SumOverPlus(Start(f), Front(f), kind);
    FrontTotal(f, kind);
    NameWalkTotal(f, kind);
    BackTotal(f, kind);
  }

  /** Until a stage is reached, all stages before it and its own admission are paid. */
  lemma {:induction false} PaidIsSum(stages: seq<Stage>, from: nat, i: nat, kind: Kind)
    requires from <= i < |stages|
    ensures PaidUntil(stages, from, i, kind) == SumOver(stages[from..i], kind) + Total(stages[i].before, kind)
    decreases i - from
  {
    hide StageTotal;
    if from < i {
      PaidIsSum(stages, from + 1, i, kind);
      assert stages[from..i][1..] == stages[from + 1..i];
    }
  }

  lemma QuietPlus(a: seq<Stage>, b: seq<Stage>)
    requires Quiet(a) && Quiet(b)
    ensures Quiet(a + b)
  {
  }

  lemma CompilationIsQuiet(f: Figures)
    ensures Quiet(Compilation(f))
  {
    ConversionTotal(f.conversions, Work);
    assert Quiet(Start(f)) && Quiet(Front(f)) && Quiet(NameWalk(f));
    assert Quiet(Middle(f)) && Quiet(Codegen(f)) && Quiet([Emission(f)]);
    hide Quiet, Start, Front, NameWalk, Middle, Codegen, Emission;
    QuietPlus(Start(f), Front(f));
    QuietPlus(Start(f) + Front(f), NameWalk(f));
    QuietPlus(Start(f) + Front(f) + NameWalk(f), Middle(f));
    QuietPlus(Start(f) + Front(f) + NameWalk(f) + Middle(f), Codegen(f));
    QuietPlus(Start(f) + Front(f) + NameWalk(f) + Middle(f) + Codegen(f), [Emission(f)]);
  }

  /** Compilation succeeds under limits exactly if its stages do and the limits cover its bill. */
  lemma SucceedsExactlyOnBill(f: Figures, limits: Left)
    ensures Execute(Steps(Compilation(f)), limits).outcome.Success?
            <==> AllFit(f) && Bill(f).work <= limits.work && Bill(f).temporary <= limits.temporary
                 && Bill(f).retained <= limits.retained
  {
    hide Execute, Total, Compilation, Bill, NeverFails;
    var steps := Steps(Compilation(f));
    SucceedsExactlyWithinTotals(steps, limits);
    BillIsTotal(f, Work);
    BillIsTotal(f, Temporary);
    BillIsTotal(f, Retained);
    CoversEachKind(limits, steps, Bill(f));
    FitIsSuccess(f);
  }

  lemma CoversEachKind(limits: Left, steps: seq<Step>, bill: Left)
    requires forall kind :: Total(steps, kind) == bill.Of(kind)
    ensures Affords(limits, steps) <==>
              bill.work <= limits.work && bill.temporary <= limits.temporary && bill.retained <= limits.retained
  {
    if Affords(limits, steps) {
      assert Total(steps, Work) <= limits.Of(Work) && Total(steps, Temporary) <= limits.Of(Temporary);
      assert Total(steps, Retained) <= limits.Of(Retained);
    }
  }

  lemma FitIsSuccess(f: Figures)
    ensures NeverFails(Steps(Compilation(f))) <==> AllFit(f)
  {
    hide Compilation, Quiet, StepsFrom, NeverFails;
    CompilationIsQuiet(f);
    StepsFailWithStages(Compilation(f), 0);
    AllSucceed(f);
  }

  lemma AllSucceed(f: Figures)
    ensures (forall i :: 0 <= i < |Compilation(f)| ==> Compilation(f)[i].succeeds) <==> AllFit(f)
  {
    var n := |NameWalk(f)|;
    var s := Compilation(f);
    assert s[0] == Start(f)[0] && s[1] == Front(f)[0] && s[2] == Front(f)[1] && s[3] == Front(f)[2];
    assert n == 1 ==> s[4] == NameWalk(f)[0];
    assert s[4 + n] == Middle(f)[0] && s[5 + n] == Middle(f)[1] && s[6 + n] == Middle(f)[2];
    assert s[7 + n] == Codegen(f)[0] && s[8 + n] == Codegen(f)[1] && s[9 + n] == Codegen(f)[2];
    assert s[10 + n] == Emission(f);
  }

  lemma CompilationIsOrderly(f: Figures)
    ensures Orderly(Compilation(f))
  {
    assert OnlyPays(Conversions(f.conversions)) && OnlyPays([]);
    forall a: Admission ensures OnlyPays(Admit(a.work, a.temporary)) {
    }
    assert OnlyPays(Admit(f.emit.work, f.emit.temporary) + [Pays(Retained, f.retained)]);
    hide OnlyPays;
    assert Orderly(Start(f)) && Orderly(Front(f)) && Orderly(NameWalk(f));
    assert Orderly(Middle(f)) && Orderly(Codegen(f)) && Orderly([Emission(f)]);
    hide Start, Front, NameWalk, Middle, Codegen, Emission;
    OrderlyPlus(Start(f), Front(f));
    OrderlyPlus(Start(f) + Front(f), NameWalk(f));
    OrderlyPlus(Start(f) + Front(f) + NameWalk(f), Middle(f));
    OrderlyPlus(Start(f) + Front(f) + NameWalk(f) + Middle(f), Codegen(f));
    OrderlyPlus(Start(f) + Front(f) + NameWalk(f) + Middle(f) + Codegen(f), [Emission(f)]);
  }

  lemma OrderlyPlus(a: seq<Stage>, b: seq<Stage>)
    requires Orderly(a) && Orderly(b)
    ensures Orderly(a + b)
  {
    hide OnlyPays;
  }

  /** A stage of a compilation runs if and only if it is reached by successful stages and everything so far is paid. */
  lemma StageRunsIfPaid(f: Figures, limits: Left, i: nat)
    requires i < |Compilation(f)|
    ensures var stages := Compilation(f);
            i in Execute(Steps(stages), limits).ran <==>
              && (forall j :: 0 <= j < i ==> stages[j].succeeds)
              && (forall kind :: SumOver(stages[..i], kind) + Total(stages[i].before, kind) <= limits.Of(kind))
  {
    hide Execute, StepsFrom, Compilation, Orderly, Total, SumOver, PaidUntil, EndsRightly;
    CompilationIsOrderly(f);
    var stages := Compilation(f);
    StagesInOrder(stages, 0, limits);
    var ran := Execute(Steps(stages), limits).ran;
    InitialSegment(ran, i);
    assert Admissible(stages, 0, limits, i) <==> i < |ran|;
    assert stages[0..i] == stages[..i];
    forall kind ensures PaidUntil(stages, 0, i, kind) == SumOver(stages[..i], kind) + Total(stages[i].before, kind) {
      PaidIsSum(stages, 0, i, kind);
    }
  }

  lemma InitialSegment(ran: seq<nat>, i: nat)
    requires forall k :: 0 <= k < |ran| ==> ran[k] == 0 + k
    ensures i in ran <==> i < |ran|
  {
    assert i < |ran| ==> ran[i] == i;
  }

  /** The parser runs exactly if the scanner succeeded and both are paid, numerals included. */
  lemma ParserIsAdmitted(f: Figures, limits: Left)
    ensures 2 in Execute(Steps(Compilation(f)), limits).ran <==>
              && f.starts && f.lex.succeeds
              && f.lex.work + Sum(f.conversions) + f.parse.work <= limits.work
              && f.lex.temporary + f.parse.temporary <= limits.temporary
  {
    hide Execute, StepsFrom, Sum;
    var stages := Compilation(f);
    var lex := Stage(Admit(f.lex.work, f.lex.temporary), Conversions(f.conversions), f.lex.succeeds);
    assert stages[0] == Start(f)[0] && stages[1] == lex && stages[2] == Admitted(f.parse);
    StageRunsIfPaid(f, limits, 2);
    forall kind
      ensures SumOver(stages[..2], kind) + Total(stages[2].before, kind)
              == match kind
                 case Work => f.lex.work + Sum(f.conversions) + f.parse.work
                 case Temporary => f.lex.temporary + f.parse.temporary
                 case Retained => 0
    {
      hide Total, SumOver, Conversions, Admit;
      assert stages[..2] == Start(f) + [lex];
      SumOverPlus(Start(f), [lex], kind);
      StartTotal(f, kind);
      SumOfOne(lex, kind);
      AdmittedTotal(f.lex, kind);
      AdmittedTotal(f.parse, kind);
      ConversionTotal(f.conversions, kind);
      NoTotal(kind);
    }
    var paid := Left(f.lex.work + Sum(f.conversions) + f.parse.work, f.lex.temporary + f.parse.temporary, 0);
    CoversKinds(limits, paid);
  }

  lemma NoTotal(kind: Kind)
    ensures Total([], kind) == 0
  {
  }

  lemma CoversKinds(limits: Left, paid: Left)
    ensures (forall kind :: paid.Of(kind) <= limits.Of(kind)) <==>
              paid.work <= limits.work && paid.temporary <= limits.temporary && paid.retained <= limits.retained
  {
    assert paid.Of(Work) == paid.work && paid.Of(Temporary) == paid.temporary && paid.Of(Retained) == paid.retained;
    assert limits.Of(Work) == limits.work && limits.Of(Temporary) == limits.temporary;
  }

  /** The last stage, which emits the code, runs exactly if all others succeeded and the whole bill is covered. */
  lemma EmissionIsAdmitted(f: Figures, limits: Left)
    ensures |Compilation(f)| - 1 in Execute(Steps(Compilation(f)), limits).ran <==>
              && AllFit(f.(emit := f.emit.(succeeds := true)))
              && Bill(f).work <= limits.work && Bill(f).temporary <= limits.temporary
              && Bill(f).retained <= limits.retained
  {
    hide Execute, StepsFrom, SumOver, Total, Bill;
    var stages, n := Compilation(f), |Compilation(f)| - 1;
    StageRunsIfPaid(f, limits, n);
    OthersSucceed(f);
    forall kind ensures SumOver(stages[..n], kind) + Total(stages[n].before, kind) == Bill(f).Of(kind) {
      LastTotal(f, kind);
    }
    CoversKinds(limits, Bill(f));
  }

  lemma OthersSucceed(f: Figures)
    ensures (forall i :: 0 <= i < |Compilation(f)| - 1 ==> Compilation(f)[i].succeeds)
            <==> AllFit(f.(emit := f.emit.(succeeds := true)))
  {
    var g := f.(emit := f.emit.(succeeds := true));
    AllSucceed(g);
    hide AllFit;
    OthersStay(f, g);
    EmissionIsLast(f);
    EmissionIsLast(g);
    var n := |Compilation(f)| - 1;
    hide Compilation;
    if forall i :: 0 <= i < n ==> Compilation(f)[i].succeeds {
      assert forall i :: 0 <= i <= n ==> Compilation(g)[i].succeeds;
    }
  }

  lemma OthersStay(f: Figures, g: Figures)
    requires g == f.(emit := g.emit)
    ensures |Compilation(g)| == |Compilation(f)|
    ensures forall i :: 0 <= i < |Compilation(f)| - 1 ==> Compilation(g)[i] == Compilation(f)[i]
  {
  }

  lemma LastTotal(f: Figures, kind: Kind)
    ensures var stages, n := Compilation(f), |Compilation(f)| - 1;
            SumOver(stages[..n], kind) + Total(stages[n].before, kind) == Bill(f).Of(kind)
  {
    hide SumOver, Compilation, Bill, StepsFrom, StagesTotal;
    var stages, n := Compilation(f), |Compilation(f)| - 1;
    EmissionIsLast(f);
    BillIsTotal(f, kind);
    TotalOfSteps(stages, 0, kind);
    SumOverSuffix(stages, 0, kind);
    assert stages[0..] == stages && stages == stages[..n] + [stages[n]];
    SumOverPlus(stages[..n], [stages[n]], kind);
    SumOfOne(stages[n], kind);
    NoTotal(kind);
  }

  lemma EmissionIsLast(f: Figures)
    ensures Compilation(f) != [] && Compilation(f)[|Compilation(f)| - 1] == Emission(f)
  {
    hide Start, Front, NameWalk, Middle, Codegen, Emission;
    var others := Start(f) + Front(f) + NameWalk(f) + Middle(f) + Codegen(f);
    assert (others + [Emission(f)])[|others|] == Emission(f);
  }
}
