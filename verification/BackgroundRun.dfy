/** The background run with nobody else about: step by step it performs the script the service performs. */
module BackgroundRun {
  import opened Evidence
  import opened SessionModel
  import opened Service
  import opened DecisionRace

  /** The system with the background run as its only actor. */
  function Alone(gated: bool, s: State, pc: Pc, starts: nat): Sys {
    Sys(gated, s, [Actor(Background, pc)], starts, 0, Nobody)
  }

  predicate Own(ms: seq<Move>) {
    forall i | 0 <= i < |ms| :: ms[i].Step? && ms[i].who == 0
  }

  /** These moves, all its own, bring it here. */
  predicate Comes(h: Hasher, sys: Sys, ms: seq<Move>, gated: bool, s: State, pc: Pc, starts: nat) {
    Own(ms) && Play(h, sys, ms) == Alone(gated, s, pc, starts)
  }

  // ---- single steps ----

  lemma AloneTo(gated: bool, s: State, pc: Pc, starts: nat, pc': Pc)
    ensures To(Alone(gated, s, pc, starts), 0, pc') == Alone(gated, s, pc', starts)
  {
  }

  lemma AlonePerforms(h: Hasher, gated: bool, s: State, pc: Pc, starts: nat, op: Op, onOk: Pc, onErr: Pc)
    ensures Perform(h, Alone(gated, s, pc, starts), 0, op, onOk, onErr)
         == Alone(gated, Apply(h, s, op).0, if Apply(h, s, op).1 then onOk else onErr, starts)
  {
    hide Apply;
  }

  /** Where one step of Execute up to the gate leads. */
  lemma ExecuteSteps(h: Hasher, gated: bool, s: State, pc: Pc, starts: nat, c: Choice, now: Time)
    requires !c.Panic?
    ensures var sys' := Advance(h, Alone(gated, s, pc, starts), 0, c, now);
            && (pc.Start? ==> sys' == Alone(gated, s, if c.Err? then Draining(Failing) else ToValidate, starts))
            && (pc.ToValidate? ==>
                  sys' == Alone(gated, Apply(h, s, MarkValidated(now)).0,
                                if Apply(h, s, MarkValidated(now)).1 then ToPublish else Draining(Failing), starts))
            && (pc.ToPublish? ==> sys' == Alone(gated, Apply(h, s, PullEvents).0, ToResolve, starts))
            && (pc.ToResolve? && c.Err? ==> sys' == Alone(gated, s, Draining(Failing), starts))
            && (pc.ToResolve? && c.Names? ==>
                  sys' == Alone(gated, Apply(h, s, MarkResolved(c.caps)).0,
                                if Apply(h, s, MarkResolved(c.caps)).1 then ToGate else Draining(Failing), starts))
            && (pc.ToGate? && gated ==>
                  sys' == Alone(gated, Apply(h, s, MarkAwaitingApproval(now)).0,
                                if Apply(h, s, MarkAwaitingApproval(now)).1 then Draining(Returned)
                                else Draining(Failing), starts))
            && (pc.ToGate? && !gated ==> sys' == Alone(gated, s, ToRun, starts))
  {
    hide Perform, To, Apply;
    AloneTo(gated, s, pc, starts, Draining(Failing));
    AloneTo(gated, s, pc, starts, ToValidate);
    AloneTo(gated, s, pc, starts, ToRun);
    AlonePerforms(h, gated, s, pc, starts, MarkValidated(now), ToPublish, Draining(Failing));
    AlonePerforms(h, gated, s, pc, starts, PullEvents, ToResolve, ToResolve);
    if c.Names? {
      AlonePerforms(h, gated, s, pc, starts, MarkResolved(c.caps), ToGate, Draining(Failing));
    }
    AlonePerforms(h, gated, s, pc, starts, MarkAwaitingApproval(now), Draining(Returned), Draining(Failing));
  }

  /** Where one step of run up to the executor leads. */
  lemma RunSteps(h: Hasher, gated: bool, s: State, pc: Pc, starts: nat, c: Choice, now: Time)
    requires !c.Panic?
    ensures var sys' := Advance(h, Alone(gated, s, pc, starts), 0, c, now);
            && (pc.ToRun? ==> sys' == Alone(gated, s, if c.Err? then Draining(Failing) else ReadStatus, starts))
            && (pc.ReadStatus? ==>
                  sys' == Alone(gated, s, if s.status != Running then ToMarkRunning else ToStart, starts))
            && (pc.ToMarkRunning? ==>
                  sys' == Alone(gated, Apply(h, s, MarkRunning).0,
                                if Apply(h, s, MarkRunning).1 then ToStart else Draining(Failing), starts))
            && (pc.ToStart? && c.Fails? ==>
                  sys' == Alone(gated, Apply(h, s, Fail(c.reason, now)).0, Draining(Failing), starts))
            && (pc.ToStart? && !c.Fails? ==> sys' == Alone(gated, s, Executing, starts + 1))
  {
    hide Perform, Apply;
    AlonePerforms(h, gated, s, pc, starts, MarkRunning, ToStart, Draining(Failing));
    if c.Fails? {
      AlonePerforms(h, gated, s, pc, starts, Fail(c.reason, now), Draining(Failing), Draining(Failing));
    }
  }

  /** Where one step of the executor, its evidence and its outcome leads. */
  lemma OutcomeSteps(h: Hasher, gated: bool, s: State, pc: Pc, starts: nat, c: Choice, now: Time)
    requires !c.Panic?
    ensures var sys' := Advance(h, Alone(gated, s, pc, starts), 0, c, now);
            && (pc.Executing? && c.Chunked? ==>
                  sys' == Alone(gated, Apply(h, s, Emit(c.chunk, now)).0, Executing, starts))
            && (pc.Executing? && c.Ok? ==> sys' == Alone(gated, s, Recording, starts))
            && (pc.Recording? && c.Reported? ==>
                  sys' == Alone(gated, Apply(h, s, AppendEvidence(c.record, now)).0, Recording, starts))
            && (pc.Recording? && c.Ok? ==> sys' == Alone(gated, s, Finishing, starts))
            && (pc.Finishing? && c.Answers? ==>
                  sys' == Alone(gated, Apply(h, s, Succeed(c.result, now)).0,
                                if Apply(h, s, Succeed(c.result, now)).1 then Draining(Returned)
                                else Draining(Failing), starts))
            && (pc.Finishing? && c.Fails? ==>
                  sys' == Alone(gated, Apply(h, s, Fail(c.reason, now)).0,
                                if Apply(h, s, Fail(c.reason, now)).1 then Draining(Returned)
                                else Draining(Failing), starts))
  {
    hide Perform, To, Apply;
    AloneTo(gated, s, pc, starts, Recording);
    AloneTo(gated, s, pc, starts, Finishing);
    if c.Chunked? {
      AlonePerforms(h, gated, s, pc, starts, Emit(c.chunk, now), Executing, Executing);
    } else if c.Reported? {
      AlonePerforms(h, gated, s, pc, starts, AppendEvidence(c.record, now), Recording, Recording);
    } else if c.Answers? {
      AlonePerforms(h, gated, s, pc, starts, Succeed(c.result, now), Draining(Returned), Draining(Failing));
    } else if c.Fails? {
      AlonePerforms(h, gated, s, pc, starts, Fail(c.reason, now), Draining(Returned), Draining(Failing));
    }
  }

  lemma DrainSteps(h: Hasher, gated: bool, s: State, exit: Exit, starts: nat, now: Time)
    requires !exit.Panicking?
    ensures Advance(h, Alone(gated, s, Draining(exit), starts), 0, Ok, now)
         == Alone(gated, Apply(h, s, PullEvents).0, if exit.Returned? then Done else Errored, starts)
  {
    hide Perform, Apply;
    AlonePerforms(h, gated, s, Draining(exit), starts, PullEvents, AfterDrain(Background, exit), Done);
    DrainKeeps(h, s);
  }

  /** One more move. */
  lemma Then(h: Hasher, sys: Sys, ms: seq<Move>, c: Choice, now: Time, gated: bool, s: State, pc: Pc, starts: nat)
    requires Comes(h, sys, ms, gated, s, pc, starts)
    ensures var ms' := ms + [Step(0, c, now)];
            Own(ms') && Play(h, sys, ms') == Advance(h, Alone(gated, s, pc, starts), 0, c, now)
  {
    hide Advance;
    var m := Step(0, c, now);
    PlayConcat(h, sys, ms, [m]);
    PlayTwo(h, Play(h, sys, ms), m, m);
  }

  // ---- the stretches of a run ----

  lemma Drained(h: Hasher, sys: Sys, ms: seq<Move>, gated: bool, s: State, exit: Exit, starts: nat, now: Time)
    returns (ms': seq<Move>)
    requires Comes(h, sys, ms, gated, s, Draining(exit), starts) && !exit.Panicking?
    ensures Comes(h, sys, ms', gated, Apply(h, s, PullEvents).0, if exit.Returned? then Done else Errored, starts)
  {
    hide Play, Advance, Apply;
    Then(h, sys, ms, Ok, now, gated, s, Draining(exit), starts);
    DrainSteps(h, gated, s, exit, starts, now);
    ms' := ms + [Step(0, Ok, now)];
  }

  /** The executor streams. */
  lemma {:induction false} Streams(
    h: Hasher, sys: Sys, ms: seq<Move>, gated: bool, s: State, starts: nat, cs: seq<Chunk>, now: Time)
    returns (ms': seq<Move>)
    requires Comes(h, sys, ms, gated, s, Executing, starts)
    ensures Comes(h, sys, ms', gated, Run(h, s, Emits(cs, now)), Executing, starts)
    decreases |cs|
  {
    hide Play, Advance, Apply;
    ms' := ms;
    if cs != [] {
      var n := |cs| - 1;
      var ms1 := Streams(h, sys, ms, gated, s, starts, cs[..n], now);
      var s1 := Run(h, s, Emits(cs[..n], now));
      Then(h, sys, ms1, Chunked(cs[n]), now, gated, s1, Executing, starts);
      OutcomeSteps(h, gated, s1, Executing, starts, Chunked(cs[n]), now);
      RunSnoc(h, s, Emits(cs[..n], now), Emit(cs[n], now));
      ms' := ms1 + [Step(0, Chunked(cs[n]), now)];
    }
  }

  /** The evidence is recorded. */
  lemma {:induction false} Records(
    h: Hasher, sys: Sys, ms: seq<Move>, gated: bool, s: State, starts: nat, rs: seq<Record>, now: Time)
    returns (ms': seq<Move>)
    requires Comes(h, sys, ms, gated, s, Recording, starts)
    ensures Comes(h, sys, ms', gated, Run(h, s, Appends(rs, now)), Recording, starts)
    decreases |rs|
  {
    hide Play, Advance, Apply;
    ms' := ms;
    if rs != [] {
      var n := |rs| - 1;
      var ms1 := Records(h, sys, ms, gated, s, starts, rs[..n], now);
      var s1 := Run(h, s, Appends(rs[..n], now));
      Then(h, sys, ms1, Reported(rs[n]), now, gated, s1, Recording, starts);
      OutcomeSteps(h, gated, s1, Recording, starts, Reported(rs[n]), now);
      RunSnoc(h, s, Appends(rs[..n], now), AppendEvidence(rs[n], now));
      ms' := ms1 + [Step(0, Reported(rs[n]), now)];
    }
  }

  function OutcomeChoice(op: Op): Choice
    requires op.Fail? || op.Succeed?
  {
    if op.Succeed? then Answers(op.result) else Fails(op.reason)
  }

  /** From the executor's start to its outcome. */
  lemma Executes(h: Hasher, sys: Sys, ms: seq<Move>, gated: bool, s: State, starts: nat, maxTokens: int, w: World)
    returns (ms': seq<Move>)
    requires Comes(h, sys, ms, gated, s, Executing, starts) && s.status == Running
    ensures var ops := Emits(w.chunks, w.now) + Appends(w.reported, w.now) + [Outcome(maxTokens, w)];
            Comes(h, sys, ms', gated, Run(h, s, ops), Draining(Returned), starts)
  {
    hide Play, Advance, Apply, Run, Outcome;
    var emits, appends := Emits(w.chunks, w.now), Appends(w.reported, w.now);
    var ms1 := Streams(h, sys, ms, gated, s, starts, w.chunks, w.now);
    var s1 := Run(h, s, emits);
    Then(h, sys, ms1, Ok, w.now, gated, s1, Executing, starts);
    OutcomeSteps(h, gated, s1, Executing, starts, Ok, w.now);
    var ms2 := Records(h, sys, ms1 + [Step(0, Ok, w.now)], gated, s1, starts, w.reported, w.now);
    var s2 := Run(h, s1, appends);
    RunConcat(h, s, emits, appends);
    Then(h, sys, ms2, Ok, w.now, gated, s2, Recording, starts);
    OutcomeSteps(h, gated, s2, Recording, starts, Ok, w.now);
    var ms3 := ms2 + [Step(0, Ok, w.now)];
    var last := Outcome(maxTokens, w);
    OutcomeShape(maxTokens, w);
    var c := OutcomeChoice(last);
    Then(h, sys, ms3, c, w.done, gated, s2, Finishing, starts);
    OutcomeSteps(h, gated, s2, Finishing, starts, c, w.done);
    EmitsQuiet(w.chunks, w.now);
    AppendsQuiet(w.reported, w.now);
    QuietRun(h, s, emits + appends);
    OutcomeAccepted(h, s2, maxTokens, w);
    RunSnoc(h, s, emits + appends, last);
    ms' := ms3 + [Step(0, c, w.done)];
  }

  lemma OutcomeShape(maxTokens: int, w: World)
    ensures var op := Outcome(maxTokens, w);
            op == Fail(if op.Fail? then op.reason else FAILED, w.done)
            || op == Succeed(if op.Succeed? then op.result else w.result, w.done)
  {
  }

  /** From the second resolution on, as far as it goes. */
  lemma Runs(h: Hasher, sys: Sys, ms: seq<Move>, s: State, maxTokens: int, w: World) returns (ms': seq<Move>)
    requires Comes(h, sys, ms, false, s, ToRun, 0) && s.status == Resolved
    ensures Comes(h, sys, ms', false, Run(h, s, RunScript(maxTokens, w, Resolved)),
                  Draining(if RunStarts(w, Resolved) then Returned else Failing), One(RunStarts(w, Resolved)))
  {
    hide Play, Advance, Apply, Run, Outcome, Emits, Appends;
    NoRun(h, s);
    var first := if w.resolvesAgain then Ok else Err;
    Then(h, sys, ms, first, w.now, false, s, ToRun, 0);
    RunSteps(h, false, s, ToRun, 0, first, w.now);
    ms' := ms + [Step(0, first, w.now)];
    if w.resolvesAgain {
      Then(h, sys, ms', Ok, w.now, false, s, ReadStatus, 0);
      RunSteps(h, false, s, ReadStatus, 0, Ok, w.now);
      var ms1 := ms' + [Step(0, Ok, w.now)];
      Then(h, sys, ms1, Ok, w.now, false, s, ToMarkRunning, 0);
      RunSteps(h, false, s, ToMarkRunning, 0, Ok, w.now);
      RunningAnswer(h, s);
      var ms2, s1 := ms1 + [Step(0, Ok, w.now)], Apply(h, s, MarkRunning).0;
      OneOp(h, s, MarkRunning);
      if w.executorKnown {
        Then(h, sys, ms2, Ok, w.now, false, s1, ToStart, 0);
        RunSteps(h, false, s1, ToStart, 0, Ok, w.now);
        ms' := Executes(h, sys, ms2 + [Step(0, Ok, w.now)], false, s1, 1, maxTokens, w);
        RunConcat(h, s, [MarkRunning], Emits(w.chunks, w.now) + Appends(w.reported, w.now) + [Outcome(maxTokens, w)]);
      } else {
        var reason := Failure("EXECUTOR_NOT_FOUND", w.lookupError);
        Then(h, sys, ms2, Fails(reason), w.done, false, s1, ToStart, 0);
        RunSteps(h, false, s1, ToStart, 0, Fails(reason), w.done);
        RunSnoc(h, s, [MarkRunning], Fail(reason, w.done));
        ms' := ms2 + [Step(0, Fails(reason), w.done)];
      }
    }
  }

  lemma OneOp(h: Hasher, s: State, op: Op)
    ensures Run(h, s, [op]) == Apply(h, s, op).0
  {
    assert [op][1..] == [];
  }

  /** The first steps of Execute, up to a session that is validated and published. */
  lemma Validates(h: Hasher, gated: bool, s: State, now: Time) returns (ms: seq<Move>)
    requires s.status == Pending
    ensures Comes(h, Init(s, gated), ms, gated, Run(h, s, [MarkValidated(now), PullEvents]), ToResolve, 0)
    ensures Run(h, s, [MarkValidated(now), PullEvents]).status == Validated
  {
    hide Advance;
    var sys := Init(s, gated);
    var m := Step(0, Ok, now);
    assert Comes(h, sys, [], gated, s, Start, 0);
    hide Play, Apply, Run;
    Then(h, sys, [], Ok, now, gated, s, Start, 0);
    ExecuteSteps(h, gated, s, Start, 0, Ok, now);
    Then(h, sys, [] + [m], Ok, now, gated, s, ToValidate, 0);
    ExecuteSteps(h, gated, s, ToValidate, 0, Ok, now);
    ValidatingAnswer(h, s, now);
    var s1 := Apply(h, s, MarkValidated(now)).0;
    Then(h, sys, [] + [m] + [m], Ok, now, gated, s1, ToPublish, 0);
    ExecuteSteps(h, gated, s1, ToPublish, 0, Ok, now);
    OneOp(h, s, MarkValidated(now));
    RunSnoc(h, s, [MarkValidated(now)], PullEvents);
    assert [MarkValidated(now)] + [PullEvents] == [MarkValidated(now), PullEvents];
    ms := [] + [m] + [m] + [m];
  }

  /** The run that stops before it gets anywhere. */
  lemma Turned(h: Hasher, gated: bool, s: State, now: Time) returns (ms: seq<Move>)
    ensures Comes(h, Init(s, gated), ms, gated, s, Draining(Failing), 0)
  {
    hide Advance;
    var sys := Init(s, gated);
    assert Comes(h, sys, [], gated, s, Start, 0);
    hide Play;
    Then(h, sys, [], Err, now, gated, s, Start, 0);
    ExecuteSteps(h, gated, s, Start, 0, Err, now);
    ms := [] + [Step(0, Err, now)];
  }

  /** Everything before the deferred drain. */
  lemma UpToTheDrain(h: Hasher, maxTokens: int, w: World, s: State) returns (ms: seq<Move>)
    requires s.status == Pending
    ensures var script := ExecuteScript(maxTokens, w, Pending);
            Comes(h, Init(s, Gated(w)), ms, Gated(w), Run(h, s, script[..|script| - 1]),
                  Draining(if ExecuteOk(w, Pending) then Returned else Failing), One(ExecuteStarts(w, Pending)))
  {
    hide Play, Advance, Apply, Run, RunScript, RunStarts;
    var script := ExecuteScript(maxTokens, w, Pending);
    var gated, sys := Gated(w), Init(s, Gated(w));
    NoRun(h, s);
    if !Admitted(w) {
      assert script[..|script| - 1] == [];
      ms := Turned(h, gated, s, w.now);
    } else {
      var head := [MarkValidated(w.now), PullEvents];
      var s1 := Run(h, s, head);
      var ms1 := Validates(h, gated, s, w.now);
      if w.cancelledLate || !w.resolves {
        assert script[..|script| - 1] == head;
        Then(h, sys, ms1, Err, w.now, gated, s1, ToResolve, 0);
        ExecuteSteps(h, gated, s1, ToResolve, 0, Err, w.now);
        ms := ms1 + [Step(0, Err, w.now)];
      } else {
        var c := Names(w.capabilities);
        Then(h, sys, ms1, c, w.now, gated, s1, ToResolve, 0);
        ExecuteSteps(h, gated, s1, ToResolve, 0, c, w.now);
        ResolvingAnswer(h, s1, w.capabilities);
        ResolvingAccepted(h, s1, w.capabilities);
        var s2 := Apply(h, s1, MarkResolved(w.capabilities)).0;
        RunSnoc(h, s, head, MarkResolved(w.capabilities));
        ms := PastTheGate(h, sys, ms1 + [Step(0, c, w.now)], s2, maxTokens, w);
        var tail := if gated then [MarkAwaitingApproval(w.now)] else RunScript(maxTokens, w, Resolved);
        RunConcat(h, s, head + [MarkResolved(w.capabilities)], tail);
        assert head + [MarkResolved(w.capabilities)]
            == [MarkValidated(w.now), PullEvents, MarkResolved(w.capabilities)];
        assert script[..|script| - 1] == head + [MarkResolved(w.capabilities)] + tail;
      }
    }
  }

  lemma ResolvingAccepted(h: Hasher, s: State, caps: seq<string>)
    requires s.status == Validated
    ensures Apply(h, s, MarkResolved(caps)).1
  {
  }

  /** The gate, or straight into the run. */
  lemma PastTheGate(h: Hasher, sys: Sys, ms: seq<Move>, s: State, maxTokens: int, w: World)
    returns (ms': seq<Move>)
    requires Comes(h, sys, ms, Gated(w), s, ToGate, 0) && s.status == Resolved
    ensures var tail := if Gated(w) then [MarkAwaitingApproval(w.now)] else RunScript(maxTokens, w, Resolved);
            var ok := Gated(w) || RunStarts(w, Resolved);
            Comes(h, sys, ms', Gated(w), Run(h, s, tail), Draining(if ok then Returned else Failing),
                  One(!Gated(w) && RunStarts(w, Resolved)))
  {
    hide Play, Advance, Apply, Run, RunScript, RunStarts;
    Then(h, sys, ms, Ok, w.now, Gated(w), s, ToGate, 0);
    ExecuteSteps(h, Gated(w), s, ToGate, 0, Ok, w.now);
    ms' := ms + [Step(0, Ok, w.now)];
    if Gated(w) {
      GateAnswer(h, s, w.now);
      OneOp(h, s, MarkAwaitingApproval(w.now));
    } else {
      ms' := Runs(h, sys, ms', s, maxTokens, w);
    }
  }

  /**
   * With nobody else about, the background run takes a new session exactly where Execute's script takes it, calls
   * the executor exactly when Execute does, and then is done or goes on to its error path as Execute's error says.
   */
  lemma PerformsTheScript(h: Hasher, maxTokens: int, w: World, s: State) returns (ms: seq<Move>)
    requires s.status == Pending
    ensures Own(ms)
    ensures Play(h, Init(s, Gated(w)), ms)
         == Alone(Gated(w), Run(h, s, ExecuteScript(maxTokens, w, Pending)),
                  if ExecuteOk(w, Pending) then Done else Errored, One(ExecuteStarts(w, Pending)))
  {
    hide Play, Advance, Apply, Run, ExecuteOk, ExecuteStarts;
    var script := ExecuteScript(maxTokens, w, Pending);
    var body := script[..|script| - 1];
    var ms1 := UpToTheDrain(h, maxTokens, w, s);
    ms := Drained(h, Init(s, Gated(w)), ms1, Gated(w), Run(h, s, body),
                  if ExecuteOk(w, Pending) then Returned else Failing, One(ExecuteStarts(w, Pending)), w.now);
    RunSnoc(h, s, body, PullEvents);
    assert script == body + [PullEvents];
  }

  // ---- completions that are lost ----

  /**
   * Whenever the background run has come to wait at the gate with nobody else about, the completion that a
   * rejection raises is never published, whatever happens next.
   */
  lemma LostRejection(h: Hasher, maxTokens: int, w: World, s: State, d: Decision, now: Time)
    returns (ms: seq<Move>)
    requires s.status == Pending && ExecuteReaches(w, Pending) && Gated(w) && d.principal != ""
    ensures var sys := Play(h, Init(s, true), ms);
            && sys.s.status == Rejected && sys.s.pending != []
            && sys.s.pending[|sys.s.pending| - 1].SessionCompleted?
            && !CanBePublished(h, sys)
  {
    hide Play, Advance, Apply, Run;
    var ms1 := PerformsTheScript(h, maxTokens, w, s);
    ExecuteOutcome(h, maxTokens, w, s);
    var waiting := Alone(true, Run(h, s, ExecuteScript(maxTokens, w, Pending)), Done, 0);
    var join, reject := Join(Rejecter(d)), Step(1, Ok, now);
    ms := ms1 + [join, reject];
    PlayConcat(h, Init(s, true), ms1, [join, reject]);
    PlayTwo(h, waiting, join, reject);
    var joined := Take(h, waiting, join);
    assert joined.actors == [Actor(Background, Done), Actor(Rejecter(d), ToReject)];
    RejectionUnpublished(h, joined, 1, Ok, now, []);
    PublishedIffDrainAhead(h, Take(h, joined, reject));
  }

  /** Whenever Execute gives up before its gate with nobody else about, the completion its abort raises is lost. */
  lemma LostAbort(h: Hasher, maxTokens: int, w: World, s: State, now: Time) returns (ms: seq<Move>)
    requires s.status == Pending && !ExecuteReaches(w, Pending)
    ensures var sys := Play(h, Init(s, Gated(w)), ms);
            && sys.s.status == Failed && sys.s.pending != []
            && sys.s.pending[|sys.s.pending| - 1].SessionCompleted?
            && !CanBePublished(h, sys)
  {
    hide Play, Advance, Apply, Run;
    var ms1 := PerformsTheScript(h, maxTokens, w, s);
    ExecuteOutcome(h, maxTokens, w, s);
    GivenUpOpen(h, maxTokens, w, s);
    var s1 := Run(h, s, ExecuteScript(maxTokens, w, Pending));
    var m := Step(0, Ok, now);
    var errored, aborting := Alone(Gated(w), s1, Errored, 0), Alone(Gated(w), s1, Aborting, 0);
    PlayConcat(h, Init(s, Gated(w)), ms1, [m, m]);
    PlayTwo(h, errored, m, m);
    ErrorPath(h, Gated(w), s1, now);
    PlayConcat(h, Init(s, Gated(w)), ms1 + [m, m], [m]);
    PlayTwo(h, aborting, m, m);
    AbortUnpublished(h, aborting, 0, Ok, now, []);
    PublishedIffDrainAhead(h, Take(h, aborting, m));
    ms := ms1 + [m, m] + [m];
  }

  lemma GivenUpOpen(h: Hasher, maxTokens: int, w: World, s: State)
    requires s.status == Pending && !ExecuteReaches(w, Pending)
    ensures var status := Run(h, s, ExecuteScript(maxTokens, w, Pending)).status;
            status == Pending || status == Validated
  {
    var script := ExecuteScript(maxTokens, w, Pending);
    OneOp(h, s, PullEvents);
    if Admitted(w) {
      ThreeSteps(h, s, MarkValidated(w.now), PullEvents, PullEvents);
    }
  }

  lemma ErrorPath(h: Hasher, gated: bool, s: State, now: Time)
    requires s.status == Pending || s.status == Validated
    ensures var m := Step(0, Ok, now);
            Take(h, Take(h, Alone(gated, s, Errored, 0), m), m) == Alone(gated, s, Aborting, 0)
  {
    AloneTo(gated, s, Errored, 0, ErroredStillOpen);
    AloneTo(gated, s, ErroredStillOpen, 0, Aborting);
    hide To, Apply;
  }
}
