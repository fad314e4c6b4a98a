/** The pipeline saga: steps forward through an invoker, hooks backward after a failure. */
module Pipeline {
  import opened Evidence
  import opened Invoker

  datatype Hook<!S> = NoHook | Hook(run: (Any, S) -> (S, bool))

  datatype Transform = Direct | Apply(f: Any -> Any)

  /** A hook answers whether it succeeded; S is the state invocations and hooks act on. */
  datatype Step<!S> = Step(capability: Name, transform: Transform, compensate: Hook<S>)

  datatype CompensatedStep = CompensatedStep(index: nat, capability: Name, output: Any, ok: bool)

  datatype CompensationError = HookFailed(index: nat) | Interrupted

  datatype PipelineFailure = PipelineFailure(
    failedStep: nat,
    completedOutput: seq<Any>,
    cause: Error,
    compensationErrors: seq<CompensationError>,
    compensated: seq<CompensatedStep>)

  datatype PipelineResult = Completed(output: Any) | Broken(failure: PipelineFailure)

  /** What the pipeline is handed: a way to invoke and a way to ask whether the context is done. */
  datatype Context<!S> = Context(invoke: (Name, Any, S) -> (S, Outcome), cancelled: S -> bool)

  function Transformed<S>(step: Step<S>, output: Any): Any {
    match step.transform
    case Direct => output
    case Apply(f) => f(output)
  }

  // ---- the specification ----

  /** compensate, from step i - 1 down to the first. */
  function Undo<S>(c: Context<S>, steps: seq<Step<S>>, i: nat, s: S, f: PipelineFailure): (S, PipelineFailure)
    requires i <= |f.completedOutput| <= |steps|
    decreases i
  {
    if i == 0 then (s, f)
    else if c.cancelled(s) then (s, f.(compensationErrors := f.compensationErrors + [Interrupted]))
    else if steps[i - 1].compensate.NoHook? then Undo(c, steps, i - 1, s, f)
    else
      var output := f.completedOutput[i - 1];
      var (s', ok) := steps[i - 1].compensate.run(output, s);
      Undo(c, steps, i - 1, s', Noted(f, CompensatedStep(i - 1, steps[i - 1].capability, output, ok)))
  }

  function Noted(f: PipelineFailure, done: CompensatedStep): PipelineFailure {
    f.(compensated := f.compensated + [done],
       compensationErrors := if done.ok then f.compensationErrors else f.compensationErrors + [HookFailed(done.index)])
  }

  /** ExecuteWithInvoker from the step after `completed`. */
  function Forward<S>(c: Context<S>, steps: seq<Step<S>>, completed: seq<Any>, current: Any, s: S)
    : (S, PipelineResult)
    requires |completed| <= |steps|
    decreases |steps| - |completed|
  {
    var i := |completed|;
    if i == |steps| then (s, Completed(current))
    else
      var (s1, o) := c.invoke(steps[i].capability, current, s);
      match o
      case Failure(error) =>
        var (s2, f) := Undo(c, steps, i, s1, PipelineFailure(i, completed, error, [], []));
        (s2, Broken(f))
      case Success(value) =>
        var output := Transformed(steps[i], value);
        Forward(c, steps, completed + [output], output, s1)
  }

  // ---- the program ----

  class Pipeline<S> {
    const steps: seq<Step<S>>

    constructor (steps: seq<Step<S>>)
      ensures this.steps == steps
    {
      this.steps := steps;
    }

    method ExecuteWithInvoker(c: Context<S>, input: Any, start: S) returns (s: S, result: PipelineResult)
      ensures (s, result) == Forward(c, steps, [], input, start)
    {
      s := start;
      var current := input;
      var completed: seq<Any> := [];
      for i := 0 to |steps|
        invariant |completed| == i
        invariant Forward(c, steps, completed, current, s) == Forward(c, steps, [], input, start)
      {
        var (s1, o) := c.invoke(steps[i].capability, current, s);
        s := s1;
        if o.Failure? {
          var failure := PipelineFailure(i, completed, o.error, [], []);
          s, failure := Compensate(c, completed, s, failure);
          return s, Broken(failure);
        }
        current := Transformed(steps[i], o.value);
        completed := completed + [current];
      }
      result := Completed(current);
    }

    method Compensate(c: Context<S>, completed: seq<Any>, start: S, failure: PipelineFailure)
      returns (s: S, f: PipelineFailure)
      requires |completed| <= |steps| && failure.completedOutput == completed
      ensures (s, f) == Undo(c, steps, |completed|, start, failure)
    {
      hide Undo;
      s, f := start, failure;
      var i := |completed|;
      while i > 0
        invariant 0 <= i <= |completed| && f.completedOutput == completed
        invariant Undo(c, steps, i, s, f) == Undo(c, steps, |completed|, start, failure)
      {
        UndoStep(c, steps, i, s, f);
        i := i - 1;
        if c.cancelled(s) {
          f := f.(compensationErrors := f.compensationErrors + [Interrupted]);
          return;
        }
        if steps[i].compensate.NoHook? {
          continue;
        }
        var (s1, ok) := steps[i].compensate.run(completed[i], s);
        s := s1;
        f := f.(compensated := f.compensated + [CompensatedStep(i, steps[i].capability, completed[i], ok)]);
        if !ok {
          f := f.(compensationErrors := f.compensationErrors + [HookFailed(i)]);
        }
      }
      UndoNothing(c, steps, s, f);
    }
  }

  lemma UndoNothing<S>(c: Context<S>, steps: seq<Step<S>>, s: S, f: PipelineFailure)
    requires |f.completedOutput| <= |steps|
    ensures Undo(c, steps, 0, s, f) == (s, f)
  {
  }

  /** One turn of the compensation loop. */
  lemma UndoStep<S>(c: Context<S>, steps: seq<Step<S>>, i: nat, s: S, f: PipelineFailure)
    requires 0 < i <= |f.completedOutput| <= |steps|
    ensures c.cancelled(s) ==>
              Undo(c, steps, i, s, f) == (s, f.(compensationErrors := f.compensationErrors + [Interrupted]))
    ensures !c.cancelled(s) && steps[i - 1].compensate.NoHook? ==>
              Undo(c, steps, i, s, f) == Undo(c, steps, i - 1, s, f)
    ensures !c.cancelled(s) && steps[i - 1].compensate.Hook? ==>
              var output := f.completedOutput[i - 1];
              var (s', ok) := steps[i - 1].compensate.run(output, s);
              var f' := Noted(f, CompensatedStep(i - 1, steps[i - 1].capability, output, ok));
              f'.completedOutput == f.completedOutput && Undo(c, steps, i, s, f) == Undo(c, steps, i - 1, s', f')
  {
  }

  // ---- the record a failure carries ----

  /** Steps below i that have a hook, last first. */
  function Hooked<S>(steps: seq<Step<S>>, i: nat): seq<nat>
    requires i <= |steps|
  {
    if i == 0 then [] else (if steps[i - 1].compensate.NoHook? then [] else [i - 1]) + Hooked(steps, i - 1)
  }

  function Indices(cs: seq<CompensatedStep>): (r: seq<nat>)
    ensures |r| == |cs|
  {
    if cs == [] then [] else [cs[0].index] + Indices(cs[1..])
  }

  function FailedHooks(cs: seq<CompensatedStep>): seq<CompensationError> {
    if cs == [] then [] else (if cs[0].ok then [] else [HookFailed(cs[0].index)]) + FailedHooks(cs[1..])
  }

  ghost predicate NeverCancelled<S(!new)>(c: Context<S>) {
    forall s :: !c.cancelled(s)
  }

  function Extended(f: PipelineFailure, more: seq<CompensatedStep>): PipelineFailure {
    f.(compensated := f.compensated + more, compensationErrors := f.compensationErrors + FailedHooks(more))
  }

  lemma NothingExtended(f: PipelineFailure)
    ensures Extended(f, []) == f && Indices([]) == []
  {
  }

  lemma ExtendedCons(f: PipelineFailure, done: CompensatedStep, later: seq<CompensatedStep>)
    ensures Extended(Noted(f, done), later) == Extended(f, [done] + later)
    ensures Indices([done] + later) == [done.index] + Indices(later)
  {
    var more := [done] + later;
    assert more[1..] == later;
    assert f.compensated + more == f.compensated + [done] + later;
    var mine := if done.ok then [] else [HookFailed(done.index)];
    assert Noted(f, done).compensationErrors == f.compensationErrors + mine;
    assert f.compensationErrors + (mine + FailedHooks(later)) == f.compensationErrors + mine + FailedHooks(later);
  }

  /** One hooked step of the compensation. */
  lemma UndoHooked<S>(c: Context<S>, steps: seq<Step<S>>, i: nat, s: S, f: PipelineFailure)
    requires 0 < i <= |f.completedOutput| <= |steps| && !c.cancelled(s) && steps[i - 1].compensate.Hook?
    ensures var output := f.completedOutput[i - 1];
            var (s', ok) := steps[i - 1].compensate.run(output, s);
            var f' := Noted(f, CompensatedStep(i - 1, steps[i - 1].capability, output, ok));
            && f'.completedOutput == f.completedOutput
            && f.compensationErrors <= f'.compensationErrors
            && (ok <==> f'.compensationErrors == f.compensationErrors)
            && Undo(c, steps, i, s, f) == Undo(c, steps, i - 1, s', f')
  {
    var output := f.completedOutput[i - 1];
    var (s', ok) := steps[i - 1].compensate.run(output, s);
    assert !ok ==> |(f.compensationErrors + [HookFailed(i - 1)])| > |f.compensationErrors|;
  }

  predicate NamedAfter<S>(steps: seq<Step<S>>, done: CompensatedStep) {
    done.index < |steps| && done.capability == steps[done.index].capability
  }

  /** The record of a walk that stopped with `left` steps still to look at, because the context had ended. */
  function Stopped(f: PipelineFailure, left: nat): PipelineFailure {
    f.(compensationErrors := f.compensationErrors + if left > 0 then [Interrupted] else [])
  }

  /** The hooks ran one after the other, each on the state the one before left, and answered what is on record. */
  ghost predicate Ran<S>(c: Context<S>, steps: seq<Step<S>>, more: seq<CompensatedStep>, states: seq<S>) {
    && |states| == |more| + 1
    && forall k | 0 <= k < |more| :: RanAt(c, steps, more[k], states[k], states[k + 1])
  }

  ghost predicate RanAt<S>(c: Context<S>, steps: seq<Step<S>>, done: CompensatedStep, s: S, s': S) {
    && done.index < |steps| && steps[done.index].compensate.Hook? && !c.cancelled(s)
    && steps[done.index].compensate.run(done.output, s) == (s', done.ok)
  }

  lemma RanNone<S>(c: Context<S>, steps: seq<Step<S>>, s: S)
    ensures Ran(c, steps, [], [s])
  {
  }

  lemma HookedStep<S>(steps: seq<Step<S>>, i: nat)
    requires i <= |steps|
    ensures Hooked(steps, i) == if i == 0 then []
                                else (if steps[i - 1].compensate.NoHook? then [] else [i - 1]) + Hooked(steps, i - 1)
  {
  }

  lemma RanCons<S>(c: Context<S>, steps: seq<Step<S>>, done: CompensatedStep, later: seq<CompensatedStep>,
                   s: S, states: seq<S>)
    requires Ran(c, steps, later, states) && |states| > 0 && RanAt(c, steps, done, s, states[0])
    ensures Ran(c, steps, [done] + later, [s] + states)
  {
    forall k | 0 <= k <= |later|
      ensures RanAt(c, steps, ([done] + later)[k], ([s] + states)[k], ([s] + states)[k + 1])
    {
      if k > 0 {
        assert RanAt(c, steps, later[k - 1], states[k - 1], states[k]);
      }
    }
  }

  /**
   * Every hooked step the walk gets to is compensated once, last first, whatever the hooks answer, and what they
   * answer is on record. The walk gets to all of them unless the context ends; then it says so and leaves the
   * first `left` steps as they are.
   */
  lemma {:induction false} UndoIsComplete<S>(
    c: Context<S>, steps: seq<Step<S>>, i: nat, s: S, f: PipelineFailure)
    returns (more: seq<CompensatedStep>, left: nat, states: seq<S>)
    requires i <= |f.completedOutput| <= |steps|
    ensures var (s', f') := Undo(c, steps, i, s, f);
            && f' == Stopped(Extended(f, more), left)
            && (left > 0 ==> c.cancelled(s'))
            && |states| == |more| + 1 && Ran(c, steps, more, states) && states[0] == s && states[|more|] == s'
    ensures left <= i && Hooked(steps, i) == Indices(more) + Hooked(steps, left)
    ensures forall k | 0 <= k < |more| ::
              more[k].index < i && more[k].output == f.completedOutput[more[k].index] && NamedAfter(steps, more[k])
  {
    hide Undo, Noted, Indices, FailedHooks, Extended, RanAt, Ran, Hooked;
    HookedStep(steps, i);
    if i == 0 || c.cancelled(s) {
      more, left, states := [], i, [s];
      NothingExtended(f);
      RanNone(c, steps, s);
      if i == 0 {
        UndoNothing(c, steps, s, f);
        assert Stopped(f, 0) == f;
      } else {
        UndoStep(c, steps, i, s, f);
      }
    } else if steps[i - 1].compensate.NoHook? {
      UndoStep(c, steps, i, s, f);
      more, left, states := UndoIsComplete(c, steps, i - 1, s, f);
    } else {
      var output := f.completedOutput[i - 1];
      var (s', ok) := steps[i - 1].compensate.run(output, s);
      var done := CompensatedStep(i - 1, steps[i - 1].capability, output, ok);
      UndoHooked(c, steps, i, s, f);
      var later, after;
      later, left, after := UndoIsComplete(c, steps, i - 1, s', Noted(f, done));
      RanOnce(c, steps, i - 1, output, s);
      RanCons(c, steps, done, later, s, after);
      more, states := [done] + later, [s] + after;
      ExtendedCons(f, done, later);
      assert [i - 1] + (Indices(later) + Hooked(steps, left)) == [i - 1] + Indices(later) + Hooked(steps, left);
    }
  }

  lemma RanOnce<S>(c: Context<S>, steps: seq<Step<S>>, i: nat, output: Any, s: S)
    requires i < |steps| && steps[i].compensate.Hook? && !c.cancelled(s)
    ensures var (s', ok) := steps[i].compensate.run(output, s);
            RanAt(c, steps, CompensatedStep(i, steps[i].capability, output, ok), s, s')
  {
  }

  /**
   * What a failure says of the walk: the hooked steps compensated, each with its own output and its hook's answer,
   * those left, and every error met.
   */
  ghost predicate Accounts<S>(
    c: Context<S>, steps: seq<Step<S>>, states: seq<S>, s': S, f: PipelineFailure, left: nat)
  {
    && left <= f.failedStep < |steps|
    && Hooked(steps, f.failedStep) == Indices(f.compensated) + Hooked(steps, left)
    && f.compensationErrors == FailedHooks(f.compensated) + (if left > 0 then [Interrupted] else [])
    && (left > 0 ==> c.cancelled(s'))
    && Ran(c, steps, f.compensated, states) && states[|f.compensated|] == s'
    && forall k | 0 <= k < |f.compensated| ::
         var done := f.compensated[k];
         NamedAfter(steps, done) && done.index < |f.completedOutput| && done.output == f.completedOutput[done.index]
  }

  /** A broken pipeline names the failing step, holds the outputs of exactly the steps before it, and accounts. */
  lemma {:induction false} BrokenAt<S>(
    c: Context<S>, steps: seq<Step<S>>, completed: seq<Any>, current: Any, s: S) returns (left: nat, states: seq<S>)
    requires |completed| <= |steps|
    requires Forward(c, steps, completed, current, s).1.Broken?
    ensures var (s', r) := Forward(c, steps, completed, current, s);
            var f := r.failure;
            && |completed| <= f.failedStep < |steps|
            && |f.completedOutput| == f.failedStep && completed <= f.completedOutput
            && Accounts(c, steps, states, s', f, left)
    decreases |steps| - |completed|
  {
    var i := |completed|;
    var (s1, o) := c.invoke(steps[i].capability, current, s);
    if o.Failure? {
      var f0 := PipelineFailure(i, completed, o.error, [], []);
      var more;
      more, left, states := UndoIsComplete(c, steps, i, s1, f0);
      assert f0.compensated + more == more;
      assert f0.compensationErrors + FailedHooks(more) == FailedHooks(more);
    } else {
      var output := Transformed(steps[i], o.value);
      left, states := BrokenAt(c, steps, completed + [output], output, s1);
    }
  }

  // ---- how data flows ----

  /** What a step yields: the invocation's answer, through the transform where there is one. */
  ghost predicate StepYields<S>(c: Context<S>, step: Step<S>, input: Any, s: S, output: Any, s': S) {
    var (s1, o) := c.invoke(step.capability, input, s);
    && s1 == s' && o.Success?
    && (step.transform.Direct? ==> output == o.value)
    && (step.transform.Apply? ==> output == step.transform.f(o.value))
  }

  /** Each output is what its step yields for the output before it, the first step taking the input. */
  ghost predicate Piped<S>(c: Context<S>, steps: seq<Step<S>>, input: Any, outputs: seq<Any>, states: seq<S>) {
    && |outputs| <= |steps| && |states| == |outputs| + 1
    && forall k | 0 <= k < |outputs| :: PipedAt(c, steps, input, outputs, states, k)
  }

  ghost predicate PipedAt<S>(c: Context<S>, steps: seq<Step<S>>, input: Any, outputs: seq<Any>, states: seq<S>, k: nat)
    requires |outputs| <= |steps| && |states| == |outputs| + 1 && k < |outputs|
  {
    StepYields(c, steps[k], LastOutput(input, outputs, k), states[k], outputs[k], states[k + 1])
  }

  /** What step k is given. */
  function LastOutput(input: Any, outputs: seq<Any>, k: nat): Any
    requires k <= |outputs|
  {
    if k == 0 then input else outputs[k - 1]
  }

  lemma {:induction false} PipedFrom<S>(
    c: Context<S>, steps: seq<Step<S>>, input: Any, completed: seq<Any>, states: seq<S>)
    returns (outputs: seq<Any>, all: seq<S>)
    requires Piped(c, steps, input, completed, states)
    ensures Piped(c, steps, input, outputs, all) && completed <= outputs && states <= all
    ensures var n := |completed|;
            var (s', r) := Forward(c, steps, completed, LastOutput(input, completed, n), states[n]);
            Ends(c, steps, input, outputs, all, s', r)
    decreases |steps| - |completed|
  {
    var i := |completed|;
    var current, s := LastOutput(input, completed, i), states[i];
    outputs, all := completed, states;
    if i < |steps| {
      var (s1, o) := c.invoke(steps[i].capability, current, s);
      if o.Success? {
        var output := Transformed(steps[i], o.value);
        var completed', states' := completed + [output], states + [s1];
        forall k | 0 <= k <= i ensures PipedAt(c, steps, input, completed', states', k) {
          if k < i {
            assert PipedAt(c, steps, input, completed, states, k);
          }
        }
        outputs, all := PipedFrom(c, steps, input, completed', states');
      } else {
        CauseKept(c, steps, i, s1, PipelineFailure(i, completed, o.error, [], []));
      }
    }
  }

  /**
   * A result and the outputs behind it: all steps ran and the last output is returned, or the next step failed
   * and the compensation walked back from where that left the world.
   */
  ghost predicate Ends<S>(c: Context<S>, steps: seq<Step<S>>, input: Any, outputs: seq<Any>, states: seq<S>,
                    s': S, r: PipelineResult)
    requires |outputs| <= |steps| && |states| == |outputs| + 1
  {
    var n := |outputs|;
    match r
    case Completed(output) => n == |steps| && output == LastOutput(input, outputs, n) && s' == states[n]
    case Broken(f) =>
      && f.failedStep == n < |steps| && f.completedOutput == outputs
      && var (s1, o) := c.invoke(steps[n].capability, LastOutput(input, outputs, n), states[n]);
         o == Failure(f.cause) && (s', f) == Undo(c, steps, n, s1, PipelineFailure(n, outputs, f.cause, [], []))
  }

  /** A pipeline pipes: each step gets the transformed output of the one before, up to the first that fails. */
  lemma PipesThrough<S>(c: Context<S>, steps: seq<Step<S>>, input: Any, s: S)
    returns (outputs: seq<Any>, states: seq<S>)
    ensures Piped(c, steps, input, outputs, states) && states[0] == s
    ensures var (s', r) := Forward(c, steps, [], input, s);
            Ends(c, steps, input, outputs, states, s', r)
  {
    outputs, states := PipedFrom(c, steps, input, [], [s]);
  }

  lemma {:induction false} CauseKept<S>(c: Context<S>, steps: seq<Step<S>>, i: nat, s: S, f: PipelineFailure)
    requires i <= |f.completedOutput| <= |steps|
    ensures var f' := Undo(c, steps, i, s, f).1;
            f'.failedStep == f.failedStep && f'.cause == f.cause && f'.completedOutput == f.completedOutput
  {
    hide Undo;
    if i == 0 {
      UndoNothing(c, steps, s, f);
    } else {
      UndoStep(c, steps, i, s, f);
      if !c.cancelled(s) {
        if steps[i - 1].compensate.NoHook? {
          CauseKept(c, steps, i - 1, s, f);
        } else {
          var output := f.completedOutput[i - 1];
          var (s', ok) := steps[i - 1].compensate.run(output, s);
          CauseKept(c, steps, i - 1, s', Noted(f, CompensatedStep(i - 1, steps[i - 1].capability, output, ok)));
        }
      }
    }
  }

  // ---- the evidence a failure leaves ----

  /** Pays for compensations; None stands for a nil callback. */
  datatype Costs = NoCosts | Costs(of: CompensatedStep -> int)

  /** The texts of errors, which the record quotes. */
  datatype Texts = Texts(cause: Error -> string, hook: CompensatedStep -> string)

  /**
   * EvidenceWithTokens: one record for the failure with its counts and its cause, then one per compensation in the
   * order they ran, with its step, its capability, how it went and what it cost.
   */
  method EvidenceWithTokens(f: PipelineFailure, costs: Costs, texts: Texts) returns (records: seq<Record>)
    ensures |records| == 1 + |f.compensated|
    ensures records[0] == Record("pipeline.failure", "pipeline", records[0].value, 0, 0, "", "")
    ensures records[0].value.Fields?
    ensures records[0].value.fields ==
            map["failed_step" := Count(f.failedStep), "completed_steps" := Count(|f.completedOutput|),
                "cause" := Word(texts.cause(f.cause)), "compensated" := Count(|f.compensated|),
                "compensation_err" := Count(|f.compensationErrors|)]
    ensures forall k | 0 <= k < |f.compensated| :: Tells(records[k + 1], f.compensated[k], costs, texts)
  {
    var value := map["failed_step" := Count(f.failedStep), "completed_steps" := Count(|f.completedOutput|),
                     "cause" := Word(texts.cause(f.cause)), "compensated" := Count(|f.compensated|),
                     "compensation_err" := Count(|f.compensationErrors|)];
    records := [Record("pipeline.failure", "pipeline", Fields(value), 0, 0, "", "")];
    ghost var first := records[0];
    for i := 0 to |f.compensated|
      invariant |records| == 1 + i && records[0] == first
      invariant forall k | 0 <= k < i :: Tells(records[k + 1], f.compensated[k], costs, texts)
    {
      var done := f.compensated[i];
      var entry := map["step" := Count(done.index), "capability" := Word(done.capability)];
      if done.ok {
        entry := entry["status" := Word("ok")];
      } else {
        entry := entry["error" := Word(texts.hook(done))];
      }
      var cost := 0;
      if costs.Costs? {
        cost := costs.of(done);
      }
      records := records + [Record("pipeline.compensation", done.capability, Fields(entry), 0, cost, "", "")];
    }
  }

  /** A compensation's record: it holds a status or an error, as the hook answered, and nothing of the other. */
  predicate Tells(r: Record, done: CompensatedStep, costs: Costs, texts: Texts) {
    && r.kind == "pipeline.compensation" && r.source == done.capability && r.value.Fields?
    && r.timestamp == 0 && r.hash == "" && r.previousHash == ""
    && r.tokens == (if costs.NoCosts? then 0 else costs.of(done))
    && r.value.fields.Keys == {"step", "capability", if done.ok then "status" else "error"}
    && r.value.fields["step"] == Count(done.index) && r.value.fields["capability"] == Word(done.capability)
    && (done.ok ==> r.value.fields["status"] == Word("ok"))
    && (!done.ok ==> r.value.fields["error"] == Word(texts.hook(done)))
  }

  lemma {:induction false} IndicesAt(cs: seq<CompensatedStep>, k: nat)
    requires k < |cs|
    ensures Indices(cs)[k] == cs[k].index
  {
    if k > 0 {
      IndicesAt(cs[1..], k - 1);
    }
  }

  lemma {:induction false} HooksNeverInterrupt(cs: seq<CompensatedStep>)
    ensures Interrupted !in FailedHooks(cs)
  {
    if cs != [] {
      HooksNeverInterrupt(cs[1..]);
    }
  }

  /**
   * The audit trail of a broken pipeline names the hooked steps before the failing one, each once, last first:
   * all of them, unless it carries an interruption, and then all but those among the first `left` steps.
   */
  lemma AuditTrail<S>(c: Context<S>, steps: seq<Step<S>>, input: Any, s: S)
    returns (left: nat, states: seq<S>)
    requires Forward(c, steps, [], input, s).1.Broken?
    ensures var (s', r) := Forward(c, steps, [], input, s);
            var f := r.failure;
            && left <= f.failedStep < |steps|
            && (left > 0 <==> Interrupted in f.compensationErrors)
            && (left > 0 ==> c.cancelled(s'))
            && |f.compensated| + |Hooked(steps, left)| == |Hooked(steps, f.failedStep)|
            && Ran(c, steps, f.compensated, states) && states[|f.compensated|] == s'
            && forall k | 0 <= k < |f.compensated| ::
                 var i, done := Hooked(steps, f.failedStep)[k], f.compensated[k];
                 && i < |f.completedOutput| && i < |steps|
                 && done == CompensatedStep(i, steps[i].capability, f.completedOutput[i], done.ok)
  {
    hide Forward;
    left, states := BrokenAt(c, steps, [], input, s);
    var f := Forward(c, steps, [], input, s).1.failure;
    HooksNeverInterrupt(f.compensated);
    forall k | 0 <= k < |f.compensated|
      ensures NamedAfter(steps, f.compensated[k]) && Hooked(steps, f.failedStep)[k] == f.compensated[k].index
    {
      IndicesAt(f.compensated, k);
    }
  }

  // ---- rollback ----

  /**
   * What a saga asks of its steps, seen through `view`: a failed step has no effect, a hookless one has none,
   * and a hook that succeeds, run when the world is as its step left it, restores what it was before the step.
   */
  ghost predicate Undoable<S(!new), V(!new)>(c: Context<S>, steps: seq<Step<S>>, view: S -> V) {
    forall i, input, s | 0 <= i < |steps| :: StepUndoable(c, steps[i], view, input, s)
  }

  ghost predicate StepUndoable<S(!new), V(!new)>(c: Context<S>, step: Step<S>, view: S -> V, input: Any, s: S) {
    var (s1, o) := c.invoke(step.capability, input, s);
    if o.Failure? || step.compensate.NoHook? then view(s1) == view(s)
    else HookRestores(step, view, Transformed(step, o.value), view(s1), view(s))
  }

  ghost predicate HookRestores<S(!new), V(!new)>(step: Step<S>, view: S -> V, output: Any, after: V, before: V)
    requires step.compensate.Hook?
  {
    forall s | view(s) == after :: Restores(step, view, output, s, before)
  }

  ghost predicate Restores<S(!new), V(!new)>(step: Step<S>, view: S -> V, output: Any, s: S, before: V)
    requires step.compensate.Hook?
  {
    var (s', ok) := step.compensate.run(output, s);
    ok ==> view(s') == before
  }

  /** Steps i - 1 down to 0 can be undone from here, and the first of them started in view `origin`. */
  ghost predicate Ready<S(!new), V(!new)>(
    steps: seq<Step<S>>, view: S -> V, outputs: seq<Any>, views: seq<V>, i: nat)
    requires i <= |outputs| <= |steps| && |views| == |outputs| + 1
  {
    forall k | 0 <= k < i ::
      if steps[k].compensate.NoHook? then views[k] == views[k + 1]
      else HookRestores(steps[k], view, outputs[k], views[k + 1], views[k])
  }

  lemma {:induction false} UndoRestores<S(!new), V(!new)>(
    c: Context<S>, steps: seq<Step<S>>, view: S -> V, views: seq<V>, i: nat, s: S, f: PipelineFailure)
    requires i <= |f.completedOutput| <= |steps| && |views| == |f.completedOutput| + 1
    requires Ready(steps, view, f.completedOutput, views, i) && view(s) == views[i]
    ensures var (s', f') := Undo(c, steps, i, s, f);
            && f.compensationErrors <= f'.compensationErrors
            && (f'.compensationErrors == [] ==> view(s') == views[0])
  {
    hide Noted;
    if i > 0 && !c.cancelled(s) {
      if steps[i - 1].compensate.NoHook? {
        UndoRestores(c, steps, view, views, i - 1, s, f);
      } else {
        var output := f.completedOutput[i - 1];
        var (s', ok) := steps[i - 1].compensate.run(output, s);
        assert Restores(steps[i - 1], view, output, s, views[i - 1]);
        UndoHooked(c, steps, i, s, f);
        var f' := Noted(f, CompensatedStep(i - 1, steps[i - 1].capability, output, ok));
        if ok {
          UndoRestores(c, steps, view, views, i - 1, s', f');
        } else {
          ErrorsGrow(c, steps, i - 1, s', f');
        }
      }
    }
  }

  lemma {:induction false} ErrorsGrow<S>(c: Context<S>, steps: seq<Step<S>>, i: nat, s: S, f: PipelineFailure)
    requires i <= |f.completedOutput| <= |steps|
    ensures f.compensationErrors <= Undo(c, steps, i, s, f).1.compensationErrors
  {
    hide Noted;
    if i > 0 && !c.cancelled(s) {
      if steps[i - 1].compensate.NoHook? {
        ErrorsGrow(c, steps, i - 1, s, f);
      } else {
        UndoHooked(c, steps, i, s, f);
        var output := f.completedOutput[i - 1];
        var (s', ok) := steps[i - 1].compensate.run(output, s);
        ErrorsGrow(c, steps, i - 1, s', Noted(f, CompensatedStep(i - 1, steps[i - 1].capability, output, ok)));
      }
    }
  }

  lemma {:induction false} ForwardRestores<S(!new), V(!new)>(
    c: Context<S>, steps: seq<Step<S>>, view: S -> V, views: seq<V>, completed: seq<Any>, current: Any, s: S)
    requires Undoable(c, steps, view) && |completed| <= |steps| && |views| == |completed| + 1
    requires Ready(steps, view, completed, views, |completed|) && view(s) == views[|completed|]
    ensures var (s', r) := Forward(c, steps, completed, current, s);
            r.Broken? && r.failure.compensationErrors == [] ==> view(s') == views[0]
    decreases |steps| - |completed|
  {
    var i := |completed|;
    if i < |steps| {
      assert StepUndoable(c, steps[i], view, current, s);
      var (s1, o) := c.invoke(steps[i].capability, current, s);
      if o.Failure? {
        UndoRestores(c, steps, view, views, i, s1, PipelineFailure(i, completed, o.error, [], []));
      } else {
        var output := Transformed(steps[i], o.value);
        var views' := views + [view(s1)];
        var completed' := completed + [output];
        forall k | 0 <= k < i + 1
          ensures if steps[k].compensate.NoHook? then views'[k] == views'[k + 1]
                  else HookRestores(steps[k], view, completed'[k], views'[k + 1], views'[k])
        {
          if k < i {
            assert completed'[k] == completed[k];
          }
        }
        ForwardRestores(c, steps, view, views', completed', output, s1);
      }
    }
  }

  /** A failing pipeline without compensation errors leaves the world as it was before it started. */
  lemma Rollback<S(!new), V(!new)>(c: Context<S>, steps: seq<Step<S>>, view: S -> V, input: Any, s: S)
    requires Undoable(c, steps, view)
    ensures var (s', r) := Forward(c, steps, [], input, s);
            r.Broken? && r.failure.compensationErrors == [] ==> view(s') == view(s)
  {
    ForwardRestores(c, steps, view, [view(s)], [], input, s);
  }
}
