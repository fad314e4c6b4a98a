/**
 * The execution service on one session: the order of its calls, its outcomes and its draining of events,
 * for every answer the rate limiter, the repositories, the validator and the executor may give.
 */
module Service {
  import opened Evidence
  import opened SessionModel
  import opened Session
  import opened Numerals

  /** What the outside answers during one Execute or Resume, the clock at its beginning and at its outcome included. */
  datatype World = World(
    rateLimited: bool,
    actionKnown: bool,
    cancelledEarly: bool,
    inputValid: bool,
    cancelledLate: bool,
    resolves: bool,
    capabilities: seq<string>,
    writes: bool,
    external: bool,
    resolvesAgain: bool,
    executorKnown: bool,
    lookupError: string,
    chunks: seq<Chunk>,
    reported: seq<Record>,
    executorError: Option<string>,
    result: Result,
    outputDeclared: bool,
    outputValid: bool,
    outputError: string,
    now: Time,
    done: Time)

  /** The int64 sum the service takes, wrap-around included. */
  function Tokens(rs: seq<Record>): int {
    if rs == [] then 0 else Wrap64(Tokens(rs[..|rs| - 1]) + rs[|rs| - 1].tokens)
  }

  function Emits(cs: seq<Chunk>, now: Time): (ops: seq<Op>)
    ensures |ops| == |cs|
  {
    if cs == [] then [] else Emits(cs[..|cs| - 1], now) + [Emit(cs[|cs| - 1], now)]
  }

  function Appends(rs: seq<Record>, now: Time): (ops: seq<Op>)
    ensures |ops| == |rs|
  {
    if rs == [] then [] else Appends(rs[..|rs| - 1], now) + [AppendEvidence(rs[|rs| - 1], now)]
  }

  predicate OverBudget(maxTokens: int, w: World) {
    maxTokens > 0 && Tokens(w.reported) > maxTokens
  }

  function Overspent(maxTokens: int, used: int): Failure
    requires 0 < maxTokens < used
  {
    Failure("BUDGET_EXCEEDED", "token budget " + Decimal(maxTokens) + " exceeded: used " + Decimal(used))
  }

  /** How the executor's return is turned into an outcome; the first fault found names it. */
  function Outcome(maxTokens: int, w: World): Op {
    if w.executorError.Some? then Fail(Failure("EXECUTION_ERROR", w.executorError.value), w.done)
    else if OverBudget(maxTokens, w) then Fail(Overspent(maxTokens, Tokens(w.reported)), w.done)
    else if w.outputDeclared && !w.outputValid then Fail(Failure("OUTPUT_VALIDATION_ERROR", w.outputError), w.done)
    else Succeed(w.result, w.done)
  }

  /** The token budget is looked at only when the executor reported no error. */
  predicate Alarmed(maxTokens: int, w: World) {
    w.executorError.None? && OverBudget(maxTokens, w)
  }

  /** A run from this status calls the action executor. */
  predicate RunStarts(w: World, status: Status) {
    w.resolvesAgain && w.executorKnown && (status == Running || ValidTransition(status) == Some(Running))
  }

  /** Execute gets as far as the gate. */
  predicate ExecuteReaches(w: World, status: Status) {
    Admitted(w) && ValidTransition(status) == Some(Validated) && !w.cancelledLate && w.resolves
  }

  predicate ExecuteStarts(w: World, status: Status) {
    ExecuteReaches(w, status) && !Gated(w) && RunStarts(w, Resolved)
  }

  /** Execute reports no error: it waits at the gate, or its run was carried to an outcome, a failure included. */
  predicate ExecuteOk(w: World, status: Status) {
    ExecuteReaches(w, status) && (Gated(w) || RunStarts(w, Resolved))
  }

  predicate ResumeStarts(w: World, status: Status) {
    status == Running && !w.rateLimited && w.actionKnown && RunStarts(w, Running)
  }

  function One(b: bool): nat {
    if b then 1 else 0
  }

  /** The session operations `run` performs from a status. */
  function RunScript(maxTokens: int, w: World, status: Status): seq<Op> {
    if !w.resolvesAgain then []
    else if status != Running && ValidTransition(status) != Some(Running) then [MarkRunning]
    else
      (if status != Running then [MarkRunning] else [])
      + if !w.executorKnown then [Fail(Failure("EXECUTOR_NOT_FOUND", w.lookupError), w.done)]
        else Emits(w.chunks, w.now) + Appends(w.reported, w.now) + [Outcome(maxTokens, w)]
  }

  predicate Gated(w: World) {
    w.writes && w.external
  }

  predicate Admitted(w: World) {
    !w.rateLimited && w.actionKnown && !w.cancelledEarly && w.inputValid
  }

  function ExecuteScript(maxTokens: int, w: World, status: Status): seq<Op> {
    if !Admitted(w) then [PullEvents]
    else if ValidTransition(status) != Some(Validated) then [MarkValidated(w.now), PullEvents]
    else if w.cancelledLate || !w.resolves then [MarkValidated(w.now), PullEvents, PullEvents]
    else
      [MarkValidated(w.now), PullEvents, MarkResolved(w.capabilities)]
      + (if Gated(w) then [MarkAwaitingApproval(w.now)] else RunScript(maxTokens, w, Resolved))
      + [PullEvents]
  }

  function ResumeScript(maxTokens: int, w: World, status: Status): seq<Op> {
    if status != Running || w.rateLimited || !w.actionKnown then [PullEvents]
    else RunScript(maxTokens, w, status) + [PullEvents]
  }

  function Alarm(w: World, raised: bool): seq<Event> {
    if raised then [TokensExceeded(w.done)] else []
  }

  /** What Execute publishes: its own drain's events, the token alarm when it is raised, and the deferred drain's. */
  function ExecutePublishes(h: Hasher, maxTokens: int, w: World, s: State): seq<Event> {
    var script := ExecuteScript(maxTokens, w, s.status);
    var body := script[..|script| - 1];
    Published(h, s, body) + Alarm(w, ExecuteStarts(w, s.status) && Alarmed(maxTokens, w)) + Run(h, s, body).pending
  }

  lemma RunSnoc(h: Hasher, s: State, ops: seq<Op>, op: Op)
    ensures Run(h, s, ops + [op]) == Apply(h, Run(h, s, ops), op).0
  {
    RunConcat(h, s, ops, [op]);
    assert Run(h, Run(h, s, ops), [op]) == Run(h, Apply(h, Run(h, s, ops), op).0, []);
  }

  lemma {:induction false} PublishedConcat(h: Hasher, s: State, a: seq<Op>, b: seq<Op>)
    ensures Published(h, s, a + b) == Published(h, s, a) + Published(h, Run(h, s, a), b)
    decreases |a|
  {
    if a == [] {
      assert a + b == b;
    } else {
      assert (a + b)[0] == a[0] && (a + b)[1..] == a[1..] + b;
      PublishedConcat(h, Apply(h, s, a[0]).0, a[1..], b);
    }
  }

  /** What one more operation adds to a run and to what it publishes. */
  lemma Extend(h: Hasher, s: State, ops: seq<Op>, op: Op)
    ensures Run(h, s, ops + [op]) == Apply(h, Run(h, s, ops), op).0
    ensures Published(h, s, ops + [op]) == Published(h, s, ops) + if op.PullEvents? then Run(h, s, ops).pending else []
  {
    RunSnoc(h, s, ops, op);
    PublishedConcat(h, s, ops, [op]);
    assert Published(h, Apply(h, Run(h, s, ops), op).0, []) == [];
  }

  lemma NoRun(h: Hasher, s: State)
    ensures Run(h, s, []) == s && Published(h, s, []) == []
  {
  }

  /** Validation is accepted by a new session only, and draining does not change where that leaves it. */
  lemma ValidatingAnswer(h: Hasher, s: State, now: Time)
    ensures var (s', ok) := Apply(h, s, MarkValidated(now));
            && (ok <==> ValidTransition(s.status) == Some(Validated))
            && (ok ==> Apply(h, s', PullEvents).0.status == Validated)
  {
  }

  /** A running session takes any outcome. */
  lemma OutcomeAccepted(h: Hasher, s: State, maxTokens: int, w: World)
    requires s.status == Running
    ensures Apply(h, s, Outcome(maxTokens, w)).1
  {
  }

  lemma QuietStatus(h: Hasher, s: State, op: Op)
    requires op.Emit? || op.AppendEvidence?
    ensures Apply(h, s, op).0.status == s.status
  {
  }

  lemma GateAnswer(h: Hasher, s: State, now: Time)
    requires s.status == Resolved
    ensures Apply(h, s, MarkAwaitingApproval(now)).1
  {
  }

  lemma RunningAnswer(h: Hasher, s: State)
    ensures Apply(h, s, MarkRunning).1 <==> ValidTransition(s.status) == Some(Running)
    ensures Apply(h, s, MarkRunning).1 ==> Apply(h, s, MarkRunning).0.status == Running
  {
  }

  lemma ResolvingAnswer(h: Hasher, s: State, caps: seq<string>)
    requires s.status == Validated
    ensures Apply(h, s, MarkResolved(caps)).0.status == Resolved
  {
  }

  class ExecutionService {
    var maxTokens: int
    var published: seq<Event>
    var starts: nat

    constructor (maxTokens: int)
      ensures this.maxTokens == maxTokens && published == [] && starts == 0
    {
      this.maxTokens, published, starts := maxTokens, [], 0;
    }

    method Drain(h: Hasher, session: ExecutionSession)
      modifies this`published, session
      ensures session.View() == Apply(h, old(session.View()), PullEvents).0
      ensures published == old(published) + old(session.pendingEvents)
    {
      var events := session.PullEvents(h);
      for i := 0 to |events|
        invariant session.View() == Apply(h, old(session.View()), PullEvents).0
        invariant published == old(published) + events[..i]
      {
        published := published + [events[i]];
      }
    }

    /** `run`: everything from the second resolution to the outcome. */
    method RunAction(h: Hasher, session: ExecutionSession, w: World) returns (ok: bool)
      modifies this`starts, this`published, session
      ensures session.View() == Run(h, old(session.View()), RunScript(maxTokens, w, old(session.status)))
      ensures Published(h, old(session.View()), RunScript(maxTokens, w, old(session.status))) == []
      ensures starts == old(starts) + One(RunStarts(w, old(session.status)))
      ensures published == old(published) + Alarm(w, RunStarts(w, old(session.status)) && Alarmed(maxTokens, w))
      ensures ok <==> RunStarts(w, old(session.status))
    {
      hide Run, Apply, Published, Outcome, Emits, Appends;
      ghost var v := session.View();
      NoRun(h, v);
      if !w.resolvesAgain {
        return false;
      }
      ghost var ops: seq<Op> := [];
      if session.status != Running {
        RunningAnswer(h, v);
        ok := session.MarkRunning(h);
        Extend(h, v, ops, MarkRunning);
        ops := ops + [MarkRunning];
        assert ops == [MarkRunning];
        if !ok {
          return false;
        }
      }
      ok := RunExecutor(h, session, w, v, ops);
    }

    /** The executor lookup, the executor and the outcome. */
    method RunExecutor(h: Hasher, session: ExecutionSession, w: World, ghost v: State, ghost ops: seq<Op>)
      returns (ok: bool)
      requires session.View() == Run(h, v, ops) && Published(h, v, ops) == [] && session.status == Running
      modifies this`starts, this`published, session
      ensures var more := if !w.executorKnown then [Fail(Failure("EXECUTOR_NOT_FOUND", w.lookupError), w.done)]
                          else Emits(w.chunks, w.now) + Appends(w.reported, w.now) + [Outcome(maxTokens, w)];
              session.View() == Run(h, v, ops + more) && Published(h, v, ops + more) == []
      ensures starts == old(starts) + One(w.executorKnown)
      ensures published == old(published) + Alarm(w, w.executorKnown && Alarmed(maxTokens, w))
      ensures ok <==> w.executorKnown
    {
      hide Run, Apply, Published;
      if !w.executorKnown {
        var reason := Failure("EXECUTOR_NOT_FOUND", w.lookupError);
        var failed := session.Fail(h, reason, w.done);
        Extend(h, v, ops, Fail(reason, w.done));
        return false;
      }
      starts := starts + 1;
      ExecutorRuns(h, session, w, v, ops);
      ghost var ops1 := ops + Emits(w.chunks, w.now);
      var total := RecordEvidence(h, session, w, v, ops1);
      ghost var ops2 := ops1 + Appends(w.reported, w.now);
      OutcomeAccepted(h, session.View(), maxTokens, w);
      ok := Conclude(h, session, w, total);
      Extend(h, v, ops2, Outcome(maxTokens, w));
      assert ops2 + [Outcome(maxTokens, w)]
          == ops + (Emits(w.chunks, w.now) + Appends(w.reported, w.now) + [Outcome(maxTokens, w)]);
    }

    method Conclude(h: Hasher, session: ExecutionSession, w: World, total: int) returns (ok: bool)
      requires total == Tokens(w.reported)
      modifies this`published, session
      ensures (session.View(), ok) == Apply(h, old(session.View()), Outcome(maxTokens, w))
      ensures published == old(published) + Alarm(w, Alarmed(maxTokens, w))
    {
      hide Apply, Tokens, Decimal;
      if w.executorError.Some? {
        ok := session.Fail(h, Failure("EXECUTION_ERROR", w.executorError.value), w.done);
        return;
      }
      if maxTokens > 0 && total > maxTokens {
        published := published + [TokensExceeded(w.done)];
        ok := session.Fail(h, Overspent(maxTokens, total), w.done);
        return;
      }
      if w.outputDeclared && !w.outputValid {
        ok := session.Fail(h, Failure("OUTPUT_VALIDATION_ERROR", w.outputError), w.done);
        return;
      }
      ok := session.Succeed(h, w.result, w.done);
    }

    /** The executor streams its chunks. */
    method ExecutorRuns(h: Hasher, session: ExecutionSession, w: World, ghost v: State, ghost ops: seq<Op>)
      requires session.View() == Run(h, v, ops) && Published(h, v, ops) == []
      modifies session
      ensures session.View() == Run(h, v, ops + Emits(w.chunks, w.now))
      ensures Published(h, v, ops + Emits(w.chunks, w.now)) == []
      ensures session.status == old(session.status)
    {
      hide Run, Apply, Published;
      assert ops + Emits([], w.now) == ops;
      for i := 0 to |w.chunks|
        invariant session.View() == Run(h, v, ops + Emits(w.chunks[..i], w.now))
        invariant Published(h, v, ops + Emits(w.chunks[..i], w.now)) == []
        invariant session.status == old(session.status)
      {
        QuietStatus(h, session.View(), Emit(w.chunks[i], w.now));
        session.Emit(h, w.chunks[i], w.now);
        assert w.chunks[..i + 1][..i] == w.chunks[..i];
        ghost var sofar := ops + Emits(w.chunks[..i], w.now);
        Extend(h, v, sofar, Emit(w.chunks[i], w.now));
        assert sofar + [Emit(w.chunks[i], w.now)] == ops + Emits(w.chunks[..i + 1], w.now);
      }
      assert w.chunks[..|w.chunks|] == w.chunks;
    }

    method RecordEvidence(h: Hasher, session: ExecutionSession, w: World, ghost v: State, ghost ops: seq<Op>)
      returns (total: int)
      requires session.View() == Run(h, v, ops) && Published(h, v, ops) == []
      modifies session
      ensures session.View() == Run(h, v, ops + Appends(w.reported, w.now))
      ensures Published(h, v, ops + Appends(w.reported, w.now)) == []
      ensures total == Tokens(w.reported)
      ensures session.status == old(session.status)
    {
      hide Run, Apply, Published;
      total := 0;
      assert ops + Appends([], w.now) == ops;
      for i := 0 to |w.reported|
        invariant session.View() == Run(h, v, ops + Appends(w.reported[..i], w.now))
        invariant Published(h, v, ops + Appends(w.reported[..i], w.now)) == []
        invariant total == Tokens(w.reported[..i])
        invariant session.status == old(session.status)
      {
        QuietStatus(h, session.View(), AppendEvidence(w.reported[i], w.now));
        session.AppendEvidence(h, w.reported[i], w.now);
        total := Wrap64(total + w.reported[i].tokens);
        assert w.reported[..i + 1][..i] == w.reported[..i];
        ghost var sofar := ops + Appends(w.reported[..i], w.now);
        Extend(h, v, sofar, AppendEvidence(w.reported[i], w.now));
        assert sofar + [AppendEvidence(w.reported[i], w.now)] == ops + Appends(w.reported[..i + 1], w.now);
      }
      assert w.reported[..|w.reported|] == w.reported;
    }

    method Execute(h: Hasher, session: ExecutionSession, w: World) returns (ok: bool)
      modifies this, session
      ensures maxTokens == old(maxTokens)
      ensures session.View() == Run(h, old(session.View()), ExecuteScript(maxTokens, w, old(session.status)))
      ensures published == old(published) + ExecutePublishes(h, maxTokens, w, old(session.View()))
      ensures starts == old(starts) + One(ExecuteStarts(w, old(session.status)))
      ensures ok <==> ExecuteOk(w, old(session.status))
    {
      hide Run, Apply, Published, RunScript, ExecuteScript;
      ghost var v := session.View();
      ghost var ops;
      ok, ops := ExecuteUndrained(h, session, w);
      Extend(h, v, ops, PullEvents);
      Drain(h, session);
    }

    /** Execute before its deferred drain. */
    method ExecuteUndrained(h: Hasher, session: ExecutionSession, w: World) returns (ok: bool, ghost ops: seq<Op>)
      modifies this, session
      ensures maxTokens == old(maxTokens)
      ensures ops + [PullEvents] == ExecuteScript(maxTokens, w, old(session.status))
      ensures session.View() == Run(h, old(session.View()), ops)
      ensures published == old(published) + Published(h, old(session.View()), ops)
                           + Alarm(w, ExecuteStarts(w, old(session.status)) && Alarmed(maxTokens, w))
      ensures starts == old(starts) + One(ExecuteStarts(w, old(session.status)))
      ensures ok <==> ExecuteOk(w, old(session.status))
    {
      hide Run, Apply, Published, RunScript;
      ghost var v := session.View();
      ops := [];
      NoRun(h, v);
      ok := false;
      if w.rateLimited || !w.actionKnown || w.cancelledEarly || !w.inputValid {
        return;
      }
      ValidatingAnswer(h, v, w.now);
      var validated := session.MarkValidated(h, w.now);
      Extend(h, v, ops, MarkValidated(w.now));
      ops := ops + [MarkValidated(w.now)];
      if !validated {
        return;
      }
      Drain(h, session);
      Extend(h, v, ops, PullEvents);
      ops := ops + [PullEvents];
      if w.cancelledLate || !w.resolves {
        return;
      }
      ok := ExecuteResolved(h, session, w, v, ops);
      ops := ops + ([MarkResolved(w.capabilities)]
        + if Gated(w) then [MarkAwaitingApproval(w.now)] else RunScript(maxTokens, w, Resolved));
    }

    /** Execute from the resolution on: the gate, or straight into the run. */
    method ExecuteResolved(h: Hasher, session: ExecutionSession, w: World, ghost v: State, ghost ops: seq<Op>)
      returns (ok: bool)
      requires session.View() == Run(h, v, ops) && session.status == Validated
      modifies this`starts, this`published, session
      ensures var more := [MarkResolved(w.capabilities)]
                + if Gated(w) then [MarkAwaitingApproval(w.now)] else RunScript(maxTokens, w, Resolved);
              && session.View() == Run(h, v, ops + more)
              && Published(h, v, ops + more) == Published(h, v, ops)
      ensures starts == old(starts) + One(!Gated(w) && RunStarts(w, Resolved))
      ensures published == old(published) + Alarm(w, !Gated(w) && RunStarts(w, Resolved) && Alarmed(maxTokens, w))
      ensures ok <==> Gated(w) || RunStarts(w, Resolved)
    {
      hide Run, Apply, Published, RunScript;
      ResolvingAnswer(h, session.View(), w.capabilities);
      var resolved := session.MarkResolved(h, w.capabilities);
      Extend(h, v, ops, MarkResolved(w.capabilities));
      ghost var ops1 := ops + [MarkResolved(w.capabilities)];
      if w.writes && w.external {
        GateAnswer(h, session.View(), w.now);
        ok := session.MarkAwaitingApproval(h, w.now);
        Extend(h, v, ops1, MarkAwaitingApproval(w.now));
        assert ops1 + [MarkAwaitingApproval(w.now)]
            == ops + ([MarkResolved(w.capabilities)] + [MarkAwaitingApproval(w.now)]);
      } else {
        ghost var script := RunScript(maxTokens, w, Resolved);
        ok := RunAction(h, session, w);
        RunConcat(h, v, ops1, script);
        PublishedConcat(h, v, ops1, script);
        assert ops1 + script == ops + ([MarkResolved(w.capabilities)] + script);
      }
    }

    method Resume(h: Hasher, session: ExecutionSession, w: World) returns (ok: bool)
      modifies this, session
      ensures maxTokens == old(maxTokens)
      ensures session.View() == Run(h, old(session.View()), ResumeScript(maxTokens, w, old(session.status)))
      ensures published ==
              old(published) + Alarm(w, ResumeStarts(w, old(session.status)) && Alarmed(maxTokens, w))
              + Published(h, old(session.View()), ResumeScript(maxTokens, w, old(session.status)))
      ensures starts == old(starts) + One(ResumeStarts(w, old(session.status)))
      ensures ok <==> ResumeStarts(w, old(session.status))
    {
      hide Run, Apply, Published, RunScript;
      ghost var v := session.View();
      ghost var ops: seq<Op> := [];
      NoRun(h, v);
      ok := false;
      if session.status == Running && !w.rateLimited && w.actionKnown {
        ok := RunAction(h, session, w);
        ops := RunScript(maxTokens, w, Running);
      }
      Extend(h, v, ops, PullEvents);
      assert ResumeScript(maxTokens, w, old(session.status)) == ops + [PullEvents];
      Drain(h, session);
    }
  }

  // ---- what the scripts come to ----

  predicate Quiet(op: Op) {
    op.Emit? || op.AppendEvidence?
  }

  lemma {:induction false} QuietRun(h: Hasher, s: State, ops: seq<Op>)
    requires forall i | 0 <= i < |ops| :: Quiet(ops[i])
    ensures var s' := Run(h, s, ops);
            s'.status == s.status && s'.result == s.result && s'.failure == s.failure && s'.decision == s.decision
    decreases |ops|
  {
    if ops != [] {
      QuietRun(h, Apply(h, s, ops[0]).0, ops[1..]);
    }
  }

  lemma {:induction false} EmitsQuiet(cs: seq<Chunk>, now: Time)
    ensures forall i | 0 <= i < |cs| :: Quiet(Emits(cs, now)[i])
  {
    if cs != [] {
      EmitsQuiet(cs[..|cs| - 1], now);
    }
  }

  lemma {:induction false} AppendsQuiet(rs: seq<Record>, now: Time)
    ensures forall i | 0 <= i < |rs| :: Quiet(Appends(rs, now)[i])
  {
    if rs != [] {
      AppendsQuiet(rs[..|rs| - 1], now);
    }
  }

  /** The executor ran and nothing was found wrong with its answer. */
  predicate Flawless(maxTokens: int, w: World) {
    && w.resolvesAgain && w.executorKnown && w.executorError.None?
    && !OverBudget(maxTokens, w) && (w.outputDeclared ==> w.outputValid)
  }

  /** A run from Running or Resolved succeeds iff flawless, and fails unless it could not even start. */
  lemma RunOutcome(h: Hasher, maxTokens: int, w: World, s: State)
    requires s.status == Running || s.status == Resolved
    ensures var s' := Run(h, s, RunScript(maxTokens, w, s.status));
            && (s'.status == Succeeded <==> Flawless(maxTokens, w))
            && (s'.status == Succeeded ==> s'.result == Some(w.result))
            && (s'.status == Failed <==> w.resolvesAgain && !Flawless(maxTokens, w))
            && (!w.resolvesAgain ==> s' == s)
            && (w.resolvesAgain && w.executorKnown && !Flawless(maxTokens, w) ==>
                  s'.failure == Some(Outcome(maxTokens, w).reason))
  {
    hide Emits, Appends, Tokens, Overspent;
    var head := if s.status != Running then [MarkRunning] else [];
    var mid := Emits(w.chunks, w.now) + Appends(w.reported, w.now);
    EmitsQuiet(w.chunks, w.now);
    AppendsQuiet(w.reported, w.now);
    var s1 := Run(h, s, head);
    assert s.status != Running ==> s1 == Run(h, Apply(h, s, MarkRunning).0, []);
    if w.resolvesAgain && w.executorKnown {
      assert RunScript(maxTokens, w, s.status) == head + mid + [Outcome(maxTokens, w)];
      RunConcat(h, s, head, mid);
      QuietRun(h, s1, mid);
      RunSnoc(h, s, head + mid, Outcome(maxTokens, w));
    } else if w.resolvesAgain {
      RunSnoc(h, s, head, Fail(Failure("EXECUTOR_NOT_FOUND", w.lookupError), w.done));
    }
  }

  /**
   * Execute on a new session waits for approval iff the admitted, resolved action writes externally, and
   * otherwise ends as its run does; nothing stays unpublished.
   */
  lemma ExecuteOutcome(h: Hasher, maxTokens: int, w: World, s: State)
    requires s.status == Pending
    ensures var s' := Run(h, s, ExecuteScript(maxTokens, w, Pending));
            var reaches := Admitted(w) && !w.cancelledLate && w.resolves;
            && s'.pending == []
            && (s'.status == AwaitingApproval <==> reaches && Gated(w))
            && (s'.status == Succeeded <==> reaches && !Gated(w) && Flawless(maxTokens, w))
            && (s'.status == Failed <==> reaches && !Gated(w) && w.resolvesAgain && !Flawless(maxTokens, w))
  {
    hide RunScript, OverBudget;
    var script := ExecuteScript(maxTokens, w, Pending);
    var body := script[..|script| - 1];
    assert script == body + [PullEvents];
    RunSnoc(h, s, body, PullEvents);
    if Admitted(w) && !w.cancelledLate && w.resolves {
      var head := [MarkValidated(w.now), PullEvents, MarkResolved(w.capabilities)];
      var tail := if Gated(w) then [MarkAwaitingApproval(w.now)] else RunScript(maxTokens, w, Resolved);
      assert body == head + tail;
      RunConcat(h, s, head, tail);
      ThreeSteps(h, s, head[0], head[1], head[2]);
      var s1 := Run(h, s, head);
      if Gated(w) {
        assert Run(h, s1, tail) == Run(h, Apply(h, s1, tail[0]).0, []);
      } else {
        RunOutcome(h, maxTokens, w, s1);
      }
    } else if Admitted(w) {
      ThreeSteps(h, s, MarkValidated(w.now), PullEvents, PullEvents);
      assert script == [MarkValidated(w.now), PullEvents, PullEvents];
    } else {
      assert body == [];
    }
  }

  /**
   * An approved session reaches an end iff Resume is let through and its capabilities resolve; otherwise it
   * stays Running, where no later approval or rejection is accepted.
   */
  lemma ApproveOutcome(h: Hasher, maxTokens: int, w: World, s: State, d: Decision)
    requires s.status == AwaitingApproval && d.principal != ""
    ensures var s1 := Apply(h, s, Approve(d, w.now)).0;
            var s' := Run(h, s1, ResumeScript(maxTokens, w, s1.status));
            && s1.status == Running
            && (IsTerminal(s'.status) <==> !w.rateLimited && w.actionKnown && w.resolvesAgain)
            && (!IsTerminal(s'.status) ==> s'.status == Running)
            && (forall op: Op :: op.Approve? || op.Reject? ==> !Apply(h, s', op).1)
            && s'.pending == []
  {
    var s1 := Apply(h, s, Approve(d, w.now)).0;
    var body := if w.rateLimited || !w.actionKnown then [] else RunScript(maxTokens, w, Running);
    assert ResumeScript(maxTokens, w, Running) == body + [PullEvents];
    RunSnoc(h, s1, body, PullEvents);
    RunOutcome(h, maxTokens, w, s1);
  }

  lemma ThreeSteps(h: Hasher, s: State, a: Op, b: Op, c: Op)
    ensures Run(h, s, [a, b, c]) == Apply(h, Apply(h, Apply(h, s, a).0, b).0, c).0
  {
    assert [a, b, c][1..] == [b, c] && [b, c][1..] == [c] && [c][1..] == [];
    assert Run(h, s, [a, b, c]) == Run(h, Apply(h, s, a).0, [b, c]);
    assert Run(h, Apply(h, s, a).0, [b, c]) == Run(h, Apply(h, Apply(h, s, a).0, b).0, [c]);
  }
}
