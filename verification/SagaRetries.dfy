/**
 * A pipeline registered as a capability of an idempotent action: the invoker's retries and the saga's
 * compensations together.
 */
module SagaRetries {
  import opened Evidence
  import opened Invoker
  import opened InvokerBounds
  import opened Pipeline

  /** What one attempt of a pipeline does, as a body the invoker runs. */
  ghost function PipelineBody<W(!new)>(
    hooks: Context<W>, steps: seq<Step<W>>, completed: seq<Any>, current: Any, w: W): Body<W>
    requires |completed| <= |steps|
    decreases |steps| - |completed|
  {
    var i := |completed|;
    if i == |steps| then Return(Success(current), w)
    else
      Call(steps[i].capability, current, w,
           imap p: (Outcome, W) | true ::
             match p.0
             case Failure(error) =>
               Return(Failure(PipelineBroken(i)),
                      Undo(hooks, steps, i, p.1, PipelineFailure(i, completed, error, [], [])).0)
             case Success(value) =>
               var output := Transformed(steps[i], value);
               PipelineBody(hooks, steps, completed + [output], output, p.1))
  }

  ghost function Program<W(!new)>(hooks: Context<W>, steps: seq<Step<W>>): (Any, W) -> Body<W> {
    (input, w) => PipelineBody(hooks, steps, [], input, w)
  }

  // ---- the same pipeline, acting on the invoker's whole state ----

  ghost function OnState<W(!new)>(env: Env<W>): Context<State<W>>
    requires env.maxInvocations > 0
  {
    Context((name, input, s) => Invoke(env, s, name, input), (s: State<W>) => env.cancelled(s.w))
  }

  function LiftHook<W>(h: Hook<W>): Hook<State<W>> {
    match h
    case NoHook => NoHook
    case Hook(run) => Hook((output, s: State<W>) => var r := run(output, s.w); (s.(w := r.0), r.1))
  }

  function Lift<W>(steps: seq<Step<W>>): (r: seq<Step<State<W>>>)
    ensures |r| == |steps|
    ensures forall i | 0 <= i < |steps| ::
              r[i].capability == steps[i].capability && r[i].transform == steps[i].transform
              && r[i].compensate == LiftHook(steps[i].compensate)
  {
    seq(|steps|, i requires 0 <= i < |steps| =>
      Step(steps[i].capability, steps[i].transform, LiftHook(steps[i].compensate)))
  }

  lemma {:induction false} UndoLifts<W(!new)>(
    env: Env<W>, hooks: Context<W>, steps: seq<Step<W>>, i: nat, s: State<W>, f: PipelineFailure)
    requires env.maxInvocations > 0 && hooks.cancelled == env.cancelled
    requires i <= |f.completedOutput| <= |steps|
    ensures var (w', f') := Undo(hooks, steps, i, s.w, f);
            Undo(OnState(env), Lift(steps), i, s, f) == (s.(w := w'), f')
  {
    hide Noted;
    if i > 0 && !env.cancelled(s.w) {
      if steps[i - 1].compensate.NoHook? {
        UndoLifts(env, hooks, steps, i - 1, s, f);
      } else {
        var output := f.completedOutput[i - 1];
        var (w', ok) := steps[i - 1].compensate.run(output, s.w);
        assert Lift(steps)[i - 1].compensate.run(output, s) == (s.(w := w'), ok);
        UndoHooked(hooks, steps, i, s.w, f);
        UndoHooked(OnState(env), Lift(steps), i, s, f);
        UndoLifts(env, hooks, steps, i - 1, s.(w := w'),
                  Noted(f, CompensatedStep(i - 1, steps[i - 1].capability, output, ok)));
      }
    }
  }

  function OutcomeOf(r: PipelineResult): Outcome {
    match r
    case Completed(output) => Success(output)
    case Broken(f) => Failure(PipelineBroken(f.failedStep))
  }

  /** Running the body under the invoker is running the pipeline forward on the invoker's state. */
  lemma {:induction false} BodyIsPipeline<W(!new)>(
    env: Env<W>, hooks: Context<W>, steps: seq<Step<W>>, completed: seq<Any>, current: Any, s: State<W>)
    requires env.maxInvocations > 0 && hooks.cancelled == env.cancelled && |completed| <= |steps|
    ensures var (s', r) := Forward(OnState(env), Lift(steps), completed, current, s);
            RunBody(env, s, PipelineBody(hooks, steps, completed, current, s.w)) == (s', OutcomeOf(r))
    decreases |steps| - |completed|
  {
    var i := |completed|;
    if i < |steps| {
      assert s.(w := s.w) == s;
      var (s1, o) := Invoke(env, s, steps[i].capability, current);
      assert OnState(env).invoke(Lift(steps)[i].capability, current, s) == (s1, o);
      match o {
        case Failure(error) =>
          var f := PipelineFailure(i, completed, error, [], []);
          UndoLifts(env, hooks, steps, i, s1, f);
          var done: Body<W> := Return(Failure(PipelineBroken(i)), Undo(hooks, steps, i, s1.w, f).0);
          assert PipelineBody(hooks, steps, completed, current, s.w).resume[(o, s1.w)] == done;
          assert RunBody(env, s1, done) == (s1.(w := done.after), done.outcome);
          CauseKept(OnState(env), Lift(steps), i, s1, f);
        case Success(value) =>
          var output := Transformed(steps[i], value);
          assert Transformed(Lift(steps)[i], value) == output;
          BodyIsPipeline(env, hooks, steps, completed + [output], output, s1);
      }
    }
  }

  // ---- retries ----

  ghost predicate HooksSucceed<W(!new)>(steps: seq<Step<W>>) {
    forall i, output, w | 0 <= i < |steps| && steps[i].compensate.Hook? ::
      HookSucceeds(steps[i].compensate, output, w)
  }

  predicate HookSucceeds<W>(h: Hook<W>, output: Any, w: W)
    requires h.Hook?
  {
    h.run(output, w).1
  }

  lemma {:induction false} NoHookErrors<W(!new)>(
    hooks: Context<W>, steps: seq<Step<W>>, i: nat, w: W, f: PipelineFailure)
    requires i <= |f.completedOutput| <= |steps| && NeverCancelled(hooks) && HooksSucceed(steps)
    ensures Undo(hooks, steps, i, w, f).1.compensationErrors == f.compensationErrors
  {
    hide Noted;
    if i > 0 {
      if steps[i - 1].compensate.NoHook? {
        NoHookErrors(hooks, steps, i - 1, w, f);
      } else {
        var output := f.completedOutput[i - 1];
        assert HookSucceeds(steps[i - 1].compensate, output, w);
        var (w', ok) := steps[i - 1].compensate.run(output, w);
        UndoHooked(hooks, steps, i, w, f);
        NoHookErrors(hooks, steps, i - 1, w', Noted(f, CompensatedStep(i - 1, steps[i - 1].capability, output, ok)));
      }
    }
  }

  lemma LiftedHooksSucceed<W(!new)>(steps: seq<Step<W>>)
    requires HooksSucceed(steps)
    ensures HooksSucceed(Lift(steps))
  {
    forall i, output, s: State<W> | 0 <= i < |steps| && Lift(steps)[i].compensate.Hook?
      ensures HookSucceeds(Lift(steps)[i].compensate, output, s)
    {
      assert HookSucceeds(steps[i].compensate, output, s.w);
    }
  }

  lemma {:induction false} NoErrorsForward<S(!new)>(
    c: Context<S>, steps: seq<Step<S>>, completed: seq<Any>, current: Any, s: S)
    requires |completed| <= |steps| && NeverCancelled(c) && HooksSucceed(steps)
    ensures var r := Forward(c, steps, completed, current, s).1;
            r.Broken? ==> r.failure.compensationErrors == []
    decreases |steps| - |completed|
  {
    var i := |completed|;
    if i < |steps| {
      var (s1, o) := c.invoke(steps[i].capability, current, s);
      if o.Failure? {
        NoHookErrors(c, steps, i, s1, PipelineFailure(i, completed, o.error, [], []));
      } else {
        var output := Transformed(steps[i], o.value);
        NoErrorsForward(c, steps, completed + [output], output, s1);
      }
    }
  }

  ghost function ViewOf<W(!new), V(!new)>(view: W -> V): State<W> -> V {
    (s: State<W>) => view(s.w)
  }

  /** The saga's assumptions, no cancellation, and waiting that changes nothing the view shows. */
  ghost predicate Saga<W(!new), V(!new)>(env: Env<W>, hooks: Context<W>, steps: seq<Step<W>>, view: W -> V)
    requires env.maxInvocations > 0
  {
    && hooks.cancelled == env.cancelled && Uninterrupted(env)
    && Undoable(OnState(env), Lift(steps), ViewOf(view))
    && HooksSucceed(steps)
    && forall w, d {:trigger env.wait(w, d)} :: view(env.wait(w, d).0) == view(w)
  }

  /** One attempt: a failure has no effect, a success is one forward pass. */
  lemma SagaAttempt<W(!new), V(!new)>(
    env: Env<W>, hooks: Context<W>, steps: seq<Step<W>>, view: W -> V, s: State<W>, name: Name, input: Any)
    requires env.maxInvocations > 0 && Saga(env, hooks, steps, view)
    ensures var (s', o) := Attempt(env, s, name, Program(hooks, steps), input);
            && (o.Failure? ==> view(s'.w) == view(s.w))
            && (o.Success? ==>
                  var pass := Forward(OnState(env), Lift(steps), [], input, s.(calls := s.calls + 1));
                  pass.1 == Completed(o.value) && s'.w == pass.0.w)
  {
    var s0 := s.(calls := s.calls + 1);
    BodyIsPipeline(env, hooks, steps, [], input, s0);
    LiftedHooksSucceed(steps);
    forall x: State<W> ensures !OnState(env).cancelled(x) {
      assert !env.cancelled(x.w);
    }
    NoErrorsForward(OnState(env), Lift(steps), [], input, s0);
    Rollback(OnState(env), Lift(steps), ViewOf(view), input, s0);
    assert ViewOf(view)(s0) == view(s.w);
  }

  lemma {:induction false} FailedAttemptsLeaveNoTrace<W(!new), V(!new)>(
    env: Env<W>, hooks: Context<W>, steps: seq<Step<W>>, view: W -> V, s: State<W>, name: Name, input: Any, j: nat)
    requires env.maxInvocations > 0 && Saga(env, hooks, steps, view)
    requires forall i | 0 <= i < j :: Answer(env, s, name, Program(hooks, steps), input, i).1.Failure?
    ensures view(Before(env, s, name, Program(hooks, steps), input, j).w) == view(s.w)
  {
    if j > 0 {
      FailedAttemptsLeaveNoTrace(env, hooks, steps, view, s, name, input, j - 1);
      var before := Before(env, s, name, Program(hooks, steps), input, j - 1);
      assert Answer(env, s, name, Program(hooks, steps), input, j - 1).1.Failure?;
      SagaAttempt(env, hooks, steps, view, before, name, input);
    }
  }

  /**
   * However many attempts fail first, the pipeline invoked as a capability has the effect of the one pass that
   * succeeded, begun in a world that looks as it did at the start; and when no attempt succeeds, no effect.
   */
  lemma RetriesAreTransparent<W(!new), V(!new)>(
    env: Env<W>, hooks: Context<W>, steps: seq<Step<W>>, view: W -> V, s: State<W>, name: Name, input: Any)
    returns (start: State<W>)
    requires env.maxInvocations > 0 && Saga(env, hooks, steps, view)
    ensures view(start.w) == view(s.w)
    ensures var (s', o) := Attempts(env, s, name, Program(hooks, steps), input, 0);
            && (o.Failure? ==> view(s'.w) == view(s.w))
            && (o.Success? ==>
                  var pass := Forward(OnState(env), Lift(steps), [], input, start);
                  pass.1 == Completed(o.value) && s'.w == pass.0.w)
  {
    var program := Program(hooks, steps);
    var j := FirstSuccess(env, s, name, program, input);
    UninterruptedEnd(env, s, name, program, input, j, Attempts(env, s, name, program, input, 0));
    var before := Before(env, s, name, program, input, j);
    forall i | 0 <= i < j ensures Answer(env, s, name, program, input, i).1.Failure? {
      assert GoesOn(env, s, name, program, input, i);
    }
    FailedAttemptsLeaveNoTrace(env, hooks, steps, view, s, name, input, j);
    SagaAttempt(env, hooks, steps, view, before, name, input);
    start := before.(calls := before.calls + 1);
  }
}
