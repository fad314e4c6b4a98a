/**
 * One session shared by the goroutine that runs it and by any number of callers approving or rejecting it.
 * Every locked session method and every call into foreign code is one step; steps interleave freely.
 */
module DecisionRace {
  import opened Evidence
  import opened SessionModel

  datatype Kind =
    | Background                      // ExecuteAsync's goroutine
    | Approver(decision: Decision)    // a call of ApproveSession
    | Rejecter(decision: Decision)    // a call of RejectSession

  /** How Execute or Resume is being left when its deferred drain runs. */
  datatype Exit = Returned | Failing | Panicking

  /** Where an actor stands. Execute is Start..ToGate, run is ToRun..Finishing, Resume enters at ResumeRead. */
  datatype Pc =
    | ToApprove | ToReject
    | ResumeRead | ResumeLimits
    | Start | ToValidate | ToPublish | ToResolve | ToGate
    | ToRun | ReadStatus | ToMarkRunning | ToStart
    | Executing | Recording | Finishing
    | Draining(exit: Exit)
    | Errored | ErroredStillOpen | Aborting
    | Panicked | PanicAborting
    | Done

  datatype Actor = Actor(kind: Kind, pc: Pc)

  /**
   * What foreign code does in a step: returns, fails, panics, names capabilities, streams a chunk, reports
   * evidence, answers with a result or gives a reason for failing.
   */
  datatype Choice =
    | Ok | Err | Panic
    | Names(caps: seq<string>)
    | Chunked(chunk: Chunk)
    | Reported(record: Record)
    | Answers(result: Result)
    | Fails(reason: Failure)

  datatype Winner = Nobody | Approved(caller: nat) | Declined(caller: nat)

  /** `starts` counts calls of the action executor and `wins` decisions that were accepted. */
  datatype Sys = Sys(gated: bool, s: State, actors: seq<Actor>, starts: nat, wins: nat, winner: Winner)

  datatype Move = Join(kind: Kind) | Step(who: nat, choice: Choice, now: Time)

  const PANIC := Failure("PANIC", "")
  const FAILED := Failure("EXECUTION_ERROR", "")

  function ReasonOr(c: Choice, otherwise: Failure): Failure {
    if c.Fails? then c.reason else otherwise
  }

  function Init(s: State, gated: bool): Sys {
    Sys(gated, s, [Actor(Background, Start)], 0, 0, Nobody)
  }

  function To(sys: Sys, i: nat, pc: Pc): Sys
    requires i < |sys.actors|
  {
    sys.(actors := sys.actors[i := sys.actors[i].(pc := pc)])
  }

  /** Performs a session operation; the two continuations are for its success and its refusal. */
  function Perform(h: Hasher, sys: Sys, i: nat, op: Op, onOk: Pc, onErr: Pc): Sys
    requires i < |sys.actors|
  {
    var (s', ok) := Apply(h, sys.s, op);
    To(sys.(s := s'), i, if ok then onOk else onErr)
  }

  /** A call into foreign code that only returns or fails. */
  function Call(sys: Sys, i: nat, c: Choice, onOk: Pc): Sys
    requires i < |sys.actors|
  {
    To(sys, i, if c.Err? then Draining(Failing) else onOk)
  }

  function Decide(h: Hasher, sys: Sys, i: nat, op: Op, w: Winner, onOk: Pc): Sys
    requires i < |sys.actors|
  {
    var sys' := Perform(h, sys, i, op, onOk, Done);
    if Apply(h, sys.s, op).1 then sys'.(wins := sys.wins + 1, winner := w) else sys'
  }

  /** ApproveSession and RejectSession up to the decision, and the head of Resume. */
  function AdvanceDecision(h: Hasher, sys: Sys, i: nat, c: Choice, now: Time): Sys
    requires i < |sys.actors|
  {
    var a := sys.actors[i];
    match a.pc
    case ToApprove =>
      if a.kind.Approver? then Decide(h, sys, i, Op.Approve(a.kind.decision, now), Approved(i), ResumeRead)
      else To(sys, i, Done)
    case ToReject =>
      if a.kind.Rejecter? then
        var reason := Failure("REJECTED", a.kind.decision.rationale);
        Decide(h, sys, i, Op.Reject(reason, a.kind.decision, now), Declined(i), Done)
      else To(sys, i, Done)
    case ResumeRead => To(sys, i, if sys.s.status != Running then Draining(Failing) else ResumeLimits)
    case ResumeLimits => Call(sys, i, c, ToRun)
    case _ => sys
  }

  /** Execute, up to the gate. */
  function AdvanceExecute(h: Hasher, sys: Sys, i: nat, c: Choice, now: Time): Sys
    requires i < |sys.actors|
  {
    match sys.actors[i].pc
    case Start => Call(sys, i, c, ToValidate)
    case ToValidate => Perform(h, sys, i, MarkValidated(now), ToPublish, Draining(Failing))
    case ToPublish => Perform(h, sys, i, PullEvents, ToResolve, ToResolve)
    case ToResolve =>
      if c.Err? then To(sys, i, Draining(Failing))
      else Perform(h, sys, i, MarkResolved(if c.Names? then c.caps else []), ToGate, Draining(Failing))
    case ToGate =>
      if sys.gated then Perform(h, sys, i, MarkAwaitingApproval(now), Draining(Returned), Draining(Failing))
      else To(sys, i, ToRun)
    case _ => sys
  }

  /** run, up to the call of the action executor. */
  function AdvanceRun(h: Hasher, sys: Sys, i: nat, c: Choice, now: Time): Sys
    requires i < |sys.actors|
  {
    match sys.actors[i].pc
    case ToRun => Call(sys, i, c, ReadStatus)
    case ReadStatus => To(sys, i, if sys.s.status != Running then ToMarkRunning else ToStart)
    case ToMarkRunning => Perform(h, sys, i, MarkRunning, ToStart, Draining(Failing))
    case ToStart =>
      if c.Fails? then Perform(h, sys, i, Fail(c.reason, now), Draining(Failing), Draining(Failing))
      else To(sys.(starts := sys.starts + 1), i, Executing)
    case _ => sys
  }

  /** run, from the executor's first chunk to the outcome. */
  function AdvanceOutcome(h: Hasher, sys: Sys, i: nat, c: Choice, now: Time): Sys
    requires i < |sys.actors|
  {
    match sys.actors[i].pc
    case Executing =>
      if c.Chunked? then Perform(h, sys, i, Emit(c.chunk, now), Executing, Executing) else To(sys, i, Recording)
    case Recording =>
      if c.Reported? then Perform(h, sys, i, AppendEvidence(c.record, now), Recording, Recording)
      else To(sys, i, Finishing)
    case Finishing =>
      if c.Answers? then Perform(h, sys, i, Succeed(c.result, now), Draining(Returned), Draining(Failing))
      else Perform(h, sys, i, Fail(ReasonOr(c, FAILED), now), Draining(Returned), Draining(Failing))
    case _ => sys
  }

  /** A caller simply leaves; the goroutine has its error path and its recovery still to go through. */
  function AfterDrain(kind: Kind, exit: Exit): Pc {
    if !kind.Background? || exit.Returned? then Done else if exit.Failing? then Errored else Panicked
  }

  /** The deferred drain, then the goroutine's error path and its recovery. */
  function AdvanceEnd(h: Hasher, sys: Sys, i: nat, c: Choice, now: Time): Sys
    requires i < |sys.actors|
  {
    var a := sys.actors[i];
    match a.pc
    case Draining(exit) => Perform(h, sys, i, PullEvents, AfterDrain(a.kind, exit), Done)
    case Errored => To(sys, i, if IsTerminal(sys.s.status) then Done else ErroredStillOpen)
    case ErroredStillOpen => To(sys, i, if sys.s.status == AwaitingApproval then Done else Aborting)
    case Aborting => Perform(h, sys, i, Abort(ReasonOr(c, FAILED), now), Done, Done)
    case Panicked => Perform(h, sys, i, Fail(ReasonOr(c, PANIC), now), Done, PanicAborting)
    case PanicAborting => Perform(h, sys, i, Abort(ReasonOr(c, PANIC), now), Done, Done)
    case _ => sys
  }

  predicate Recovering(pc: Pc) {
    pc.Done? || pc.Panicked? || pc.PanicAborting?
  }

  /** Outside Execute and Resume, whose drain is deferred past a panic. */
  predicate Outside(pc: Pc) {
    pc.ToApprove? || pc.ToReject? || pc.Draining? || pc.Errored? || pc.ErroredStillOpen? || pc.Aborting?
  }

  /** Where a panic takes an actor. */
  function Unwind(a: Actor): Pc {
    if !Outside(a.pc) then Draining(Panicking) else if a.kind.Background? then Panicked else Done
  }

  function Advance(h: Hasher, sys: Sys, i: nat, c: Choice, now: Time): Sys
    requires i < |sys.actors|
  {
    var a := sys.actors[i];
    if c.Panic? && !Recovering(a.pc) then To(sys, i, Unwind(a))
    else
      match a.pc
      case ToApprove | ToReject | ResumeRead | ResumeLimits => AdvanceDecision(h, sys, i, c, now)
      case Start | ToValidate | ToPublish | ToResolve | ToGate => AdvanceExecute(h, sys, i, c, now)
      case ToRun | ReadStatus | ToMarkRunning | ToStart => AdvanceRun(h, sys, i, c, now)
      case Executing | Recording | Finishing => AdvanceOutcome(h, sys, i, c, now)
      case _ => AdvanceEnd(h, sys, i, c, now)
  }

  function Take(h: Hasher, sys: Sys, m: Move): Sys {
    match m
    case Join(k) =>
      if k.Background? then sys
      else sys.(actors := sys.actors + [Actor(k, if k.Approver? then ToApprove else ToReject)])
    case Step(i, c, now) => if i < |sys.actors| then Advance(h, sys, i, c, now) else sys
  }

  function Play(h: Hasher, sys: Sys, ms: seq<Move>): Sys
    decreases |ms|
  {
    if ms == [] then sys else Play(h, Take(h, sys, ms[0]), ms[1..])
  }

  // ---- the invariant ----

  predicate Early(s: Status) {
    s.Pending? || s.Validated? || s.Resolved?
  }

  predicate GlobalOk(sys: Sys) {
    && Inv(sys.s)
    && sys.wins <= 1 && sys.starts <= 1
    && (sys.wins == 0 <==> sys.winner.Nobody?)
    && (Early(sys.s.status) || sys.s.status == AwaitingApproval ==> sys.wins == 0 && sys.starts == 0)
    && (sys.s.status == AwaitingApproval || sys.wins > 0 ==> sys.gated)
    && (sys.gated && sys.s.status == Running ==> sys.winner.Approved?)
    && (sys.gated && sys.starts > 0 ==> sys.winner.Approved?)
    && (sys.winner.Approved? ==>
          sys.s.decision.Some? && sys.s.decision.value.principal != "" && !Early(sys.s.status)
          && sys.s.status != AwaitingApproval && sys.s.status != Rejected)
    && (sys.winner.Declined? <==> sys.s.status == Rejected)
    && (sys.winner.Declined? ==> sys.starts == 0)
  }

  /** What the place of the background run says about the session. */
  predicate BackgroundOk(sys: Sys, pc: Pc) {
    match pc
    case ToApprove | ToReject | ResumeRead | ResumeLimits => false
    case Start | ToValidate => sys.s.status == Pending
    case ToPublish | ToResolve => sys.s.status == Validated
    case ToGate => sys.s.status == Resolved
    case ToRun | ReadStatus | ToMarkRunning => !sys.gated && sys.s.status == Resolved
    case ToStart => !sys.gated && sys.s.status == Running && sys.starts == 0
    case Executing | Recording | Finishing => !sys.gated && sys.starts == 1
    case _ => true
  }

  predicate CallerOk(sys: Sys, i: nat, a: Actor) {
    match a.pc
    case ToApprove => a.kind.Approver?
    case ToReject => a.kind.Rejecter?
    case ResumeRead | ResumeLimits | ToRun | ReadStatus | ToMarkRunning | ToStart =>
      a.kind.Approver? && sys.winner == Approved(i) && sys.starts == 0
    case Executing | Recording | Finishing => a.kind.Approver? && sys.winner == Approved(i)
    case Draining(_) | Done => true
    case _ => false
  }

  predicate ActorOk(sys: Sys, i: nat)
    requires i < |sys.actors|
  {
    var a := sys.actors[i];
    if i == 0 then a.kind.Background? && BackgroundOk(sys, a.pc)
    else !a.kind.Background? && CallerOk(sys, i, a)
  }

  predicate ActorsOk(sys: Sys) {
    |sys.actors| > 0 && forall i | 0 <= i < |sys.actors| :: ActorOk(sys, i)
  }

  predicate SysInv(sys: Sys) {
    GlobalOk(sys) && ActorsOk(sys)
  }

  lemma InitOk(s: State, gated: bool)
    requires Inv(s) && s.status == Pending
    ensures SysInv(Init(s, gated))
  {
  }

  /** The part of an operation's effect the race turns on: the new status, the new decision and the answer. */
  function Outline(status: Status, decision: Option<Decision>, op: Op): (Status, Option<Decision>, bool) {
    match op
    case MarkValidated(_) => if status == Pending then (Validated, decision, true) else (status, decision, false)
    case MarkResolved(_) => if status == Validated then (Resolved, decision, true) else (status, decision, false)
    case MarkAwaitingApproval(_) =>
      if status == Resolved then (AwaitingApproval, decision, true) else (status, decision, false)
    case Approve(d, _) =>
      if d.principal != "" && status == AwaitingApproval then (Running, Some(d), true) else (status, decision, false)
    case Reject(_, d, _) =>
      if d.principal != "" && status == AwaitingApproval then (Rejected, Some(d), true) else (status, decision, false)
    case MarkRunning =>
      if status == Resolved || status == AwaitingApproval then (Running, decision, true) else (status, decision, false)
    case Succeed(_, _) => if status == Running then (Succeeded, decision, true) else (status, decision, false)
    case Fail(_, _) => if status == Running then (Failed, decision, true) else (status, decision, false)
    case Abort(_, _) => if IsTerminal(status) then (status, decision, true) else (Failed, decision, true)
    case _ => (status, decision, true)
  }

  predicate Outlined(h: Hasher, s: State, op: Op) {
    var (s', ok) := Apply(h, s, op);
    Inv(s') && (s'.status, s'.decision, ok) == Outline(s.status, s.decision, op)
  }

  lemma ApplyOutlined(h: Hasher, s: State, op: Op)
    requires Inv(s)
    ensures Outlined(h, s, op)
  {
    ApplyKeepsInv(h, s, op);
  }

  /** A session operation as the race sees it. */
  lemma PerformOutlined(h: Hasher, sys: Sys, i: nat, op: Op, onOk: Pc, onErr: Pc)
    requires Inv(sys.s) && i < |sys.actors|
    ensures var sys' := Perform(h, sys, i, op, onOk, onErr);
            var (status, decision, ok) := Outline(sys.s.status, sys.s.decision, op);
            && Apply(h, sys.s, op).1 == ok
            && sys' == To(sys.(s := sys'.s), i, if ok then onOk else onErr)
            && Inv(sys'.s) && sys'.s.status == status && sys'.s.decision == decision
  {
    ApplyOutlined(h, sys.s, op);
  }

  /** What one actor's step may do to what the other actors' places say. */
  predicate Frame(sys: Sys, sys': Sys, i: nat)
    requires i < |sys.actors|
  {
    && sys'.gated == sys.gated
    && |sys'.actors| == |sys.actors| && sys'.actors == sys.actors[i := sys'.actors[i]]
    && (sys'.winner == sys.winner || sys.winner.Nobody?)
    && (sys'.starts == sys.starts || (if i == 0 then !sys.gated else sys.winner == Approved(i)))
    && (i > 0 && !(sys.gated && !Early(sys.s.status)) ==> sys'.s.status == sys.s.status && sys'.starts == sys.starts)
  }

  predicate StepOk(sys: Sys, sys': Sys, i: nat)
    requires i < |sys.actors|
  {
    Frame(sys, sys', i) && GlobalOk(sys') && ActorOk(sys', i)
  }

  /** Places that say nothing about the session. */
  predicate Loose(kind: Kind, pc: Pc) {
    || pc.Draining? || pc.Done?
    || (kind.Background?
        && (pc.Errored? || pc.ErroredStillOpen? || pc.Aborting? || pc.Panicked? || pc.PanicAborting?))
  }

  lemma MoveStep(sys: Sys, i: nat, pc: Pc)
    requires GlobalOk(sys) && i < |sys.actors| && ActorOk(sys, i)
    requires Loose(sys.actors[i].kind, pc) || ActorOk(To(sys, i, pc), i)
    ensures StepOk(sys, To(sys, i, pc), i)
  {
    hide Inv;
  }

  lemma NeutralStep(h: Hasher, sys: Sys, i: nat, op: Op, onOk: Pc, onErr: Pc)
    requires GlobalOk(sys) && i < |sys.actors| && ActorOk(sys, i)
    requires op.Emit? || op.AppendEvidence? || op.PullEvents?
    requires Loose(sys.actors[i].kind, onOk) || ActorOk(To(sys, i, onOk), i)
    ensures StepOk(sys, Perform(h, sys, i, op, onOk, onErr), i)
  {
    hide Inv, Apply, Perform;
    PerformOutlined(h, sys, i, op, onOk, onErr);
  }

  /** A session that stays as it is, or ends, leaves every actor's place true. */
  lemma EndedOk(sys: Sys, s': State, i: nat, pc: Pc)
    requires GlobalOk(sys) && i < |sys.actors| && ActorOk(sys, i) && Loose(sys.actors[i].kind, pc)
    requires sys.actors[i].kind.Background? || (sys.gated && sys.winner.Approved?)
    requires Inv(s') && s'.decision == sys.s.decision
    requires s'.status == sys.s.status || ((s'.status == Failed || s'.status == Succeeded) && !IsTerminal(sys.s.status))
    ensures StepOk(sys, To(sys.(s := s'), i, pc), i)
  {
    hide Inv;
  }

  lemma EndingStep(h: Hasher, sys: Sys, i: nat, op: Op, onOk: Pc, onErr: Pc)
    requires GlobalOk(sys) && i < |sys.actors| && ActorOk(sys, i)
    requires op.Fail? || op.Succeed? || op.Abort?
    requires Loose(sys.actors[i].kind, onOk) && Loose(sys.actors[i].kind, onErr)
    requires sys.actors[i].kind.Background? || (sys.gated && sys.winner.Approved?)
    ensures StepOk(sys, Perform(h, sys, i, op, onOk, onErr), i)
  {
    hide Inv, Perform, StepOk, GlobalOk, ActorOk;
    assert Inv(sys.s) by { GlobalInv(sys); }
    PerformOutlined(h, sys, i, op, onOk, onErr);
    var sys' := Perform(h, sys, i, op, onOk, onErr);
    EndedOk(sys, sys'.s, i, if Apply(h, sys.s, op).1 then onOk else onErr);
  }

  lemma GlobalInv(sys: Sys)
    requires GlobalOk(sys)
    ensures Inv(sys.s)
  {
  }

  lemma DecisionStep(h: Hasher, sys: Sys, i: nat, c: Choice, now: Time)
    requires GlobalOk(sys) && i < |sys.actors| && ActorOk(sys, i)
    requires var pc := sys.actors[i].pc; pc.ToApprove? || pc.ToReject? || pc.ResumeRead? || pc.ResumeLimits?
    ensures StepOk(sys, AdvanceDecision(h, sys, i, c, now), i)
  {
    hide Inv, Apply, Perform;
    var a := sys.actors[i];
    if a.pc.ToApprove? && a.kind.Approver? {
      PerformOutlined(h, sys, i, Op.Approve(a.kind.decision, now), ResumeRead, Done);
    } else if a.pc.ToReject? && a.kind.Rejecter? {
      var reason := Failure("REJECTED", a.kind.decision.rationale);
      PerformOutlined(h, sys, i, Op.Reject(reason, a.kind.decision, now), Done, Done);
    }
  }

  lemma GateStep(h: Hasher, sys: Sys, i: nat, c: Choice, now: Time)
    requires GlobalOk(sys) && i < |sys.actors| && ActorOk(sys, i) && sys.actors[i].pc.ToGate?
    ensures StepOk(sys, AdvanceExecute(h, sys, i, c, now), i)
  {
    hide Inv, Apply, Perform;
    PerformOutlined(h, sys, i, MarkAwaitingApproval(now), Draining(Returned), Draining(Failing));
  }

  lemma ExecuteStep(h: Hasher, sys: Sys, i: nat, c: Choice, now: Time)
    requires GlobalOk(sys) && i < |sys.actors| && ActorOk(sys, i)
    requires var pc := sys.actors[i].pc; pc.Start? || pc.ToValidate? || pc.ToPublish? || pc.ToResolve? || pc.ToGate?
    ensures StepOk(sys, AdvanceExecute(h, sys, i, c, now), i)
  {
    hide Inv, Apply, Perform;
    var pc := sys.actors[i].pc;
    if pc.ToValidate? {
      PerformOutlined(h, sys, i, MarkValidated(now), ToPublish, Draining(Failing));
    } else if pc.ToPublish? {
      NeutralStep(h, sys, i, PullEvents, ToResolve, ToResolve);
    } else if pc.ToResolve? {
      PerformOutlined(h, sys, i, MarkResolved(if c.Names? then c.caps else []), ToGate, Draining(Failing));
    } else if pc.ToGate? {
      GateStep(h, sys, i, c, now);
    }
  }

  lemma StartStep(h: Hasher, sys: Sys, i: nat, c: Choice, now: Time)
    requires GlobalOk(sys) && i < |sys.actors| && ActorOk(sys, i) && sys.actors[i].pc.ToStart?
    ensures StepOk(sys, AdvanceRun(h, sys, i, c, now), i)
  {
    hide Inv, Apply, Perform;
    if c.Fails? {
      EndingStep(h, sys, i, Fail(c.reason, now), Draining(Failing), Draining(Failing));
    }
  }

  lemma RunStep(h: Hasher, sys: Sys, i: nat, c: Choice, now: Time)
    requires GlobalOk(sys) && i < |sys.actors| && ActorOk(sys, i)
    requires var pc := sys.actors[i].pc; pc.ToRun? || pc.ReadStatus? || pc.ToMarkRunning? || pc.ToStart?
    ensures StepOk(sys, AdvanceRun(h, sys, i, c, now), i)
  {
    hide Inv, Apply, Perform;
    var a := sys.actors[i];
    if a.pc.ToStart? {
      StartStep(h, sys, i, c, now);
    } else if a.pc.ToMarkRunning? {
      PerformOutlined(h, sys, i, MarkRunning, ToStart, Draining(Failing));
    }
  }

  /** Whoever runs the executor of a gated action holds the approval. */
  lemma OutcomeAuthorised(sys: Sys, i: nat)
    requires GlobalOk(sys) && i < |sys.actors| && ActorOk(sys, i) && sys.actors[i].pc.Finishing?
    ensures sys.actors[i].kind.Background? || (sys.gated && sys.winner.Approved?)
  {
  }

  lemma OutcomeStep(h: Hasher, sys: Sys, i: nat, c: Choice, now: Time)
    requires GlobalOk(sys) && i < |sys.actors| && ActorOk(sys, i)
    requires var pc := sys.actors[i].pc; pc.Executing? || pc.Recording? || pc.Finishing?
    ensures StepOk(sys, AdvanceOutcome(h, sys, i, c, now), i)
  {
    var a := sys.actors[i];
    hide Inv, Apply, Perform, GlobalOk, StepOk;
    if a.pc.Executing? && c.Chunked? {
      NeutralStep(h, sys, i, Emit(c.chunk, now), Executing, Executing);
    } else if a.pc.Executing? {
      MoveStep(sys, i, Recording);
    } else if a.pc.Recording? && c.Reported? {
      NeutralStep(h, sys, i, AppendEvidence(c.record, now), Recording, Recording);
    } else if a.pc.Recording? {
      MoveStep(sys, i, Finishing);
    } else if c.Answers? {
      OutcomeAuthorised(sys, i);
      EndingStep(h, sys, i, Succeed(c.result, now), Draining(Returned), Draining(Failing));
    } else {
      OutcomeAuthorised(sys, i);
      EndingStep(h, sys, i, Fail(ReasonOr(c, FAILED), now), Draining(Returned), Draining(Failing));
    }
  }

  lemma EndStep(h: Hasher, sys: Sys, i: nat, c: Choice, now: Time)
    requires GlobalOk(sys) && i < |sys.actors| && ActorOk(sys, i)
    requires var pc := sys.actors[i].pc;
             pc.Draining? || pc.Errored? || pc.ErroredStillOpen? || pc.Aborting? || Recovering(pc)
    ensures StepOk(sys, AdvanceEnd(h, sys, i, c, now), i)
  {
    var a := sys.actors[i];
    hide Inv, Apply, Perform, GlobalOk, StepOk;
    if a.pc.Draining? {
      NeutralStep(h, sys, i, PullEvents, AfterDrain(a.kind, a.pc.exit), Done);
    } else if a.pc.Errored? {
      MoveStep(sys, i, if IsTerminal(sys.s.status) then Done else ErroredStillOpen);
    } else if a.pc.ErroredStillOpen? {
      MoveStep(sys, i, if sys.s.status == AwaitingApproval then Done else Aborting);
    } else if a.pc.Aborting? {
      EndingStep(h, sys, i, Abort(ReasonOr(c, FAILED), now), Done, Done);
    } else if a.pc.Panicked? {
      EndingStep(h, sys, i, Fail(ReasonOr(c, PANIC), now), Done, PanicAborting);
    } else if a.pc.PanicAborting? {
      EndingStep(h, sys, i, Abort(ReasonOr(c, PANIC), now), Done, Done);
    } else {
      MoveStep(sys, i, a.pc);
      assert To(sys, i, a.pc) == sys;
    }
  }

  lemma AdvanceStep(h: Hasher, sys: Sys, i: nat, c: Choice, now: Time)
    requires GlobalOk(sys) && i < |sys.actors| && ActorOk(sys, i)
    ensures StepOk(sys, Advance(h, sys, i, c, now), i)
  {
    hide Inv, GlobalOk, StepOk, AdvanceDecision, AdvanceExecute, AdvanceRun, AdvanceOutcome, AdvanceEnd;
    var a := sys.actors[i];
    if c.Panic? && !Recovering(a.pc) {
      MoveStep(sys, i, Unwind(a));
    } else {
      match a.pc
      case ToApprove | ToReject | ResumeRead | ResumeLimits => DecisionStep(h, sys, i, c, now);
      case Start | ToValidate | ToPublish | ToResolve | ToGate => ExecuteStep(h, sys, i, c, now);
      case ToRun | ReadStatus | ToMarkRunning | ToStart => RunStep(h, sys, i, c, now);
      case Executing | Recording | Finishing => OutcomeStep(h, sys, i, c, now);
      case _ => EndStep(h, sys, i, c, now);
    }
  }

  lemma OthersStay(sys: Sys, sys': Sys, i: nat, j: nat)
    requires GlobalOk(sys) && i < |sys.actors| && j < |sys.actors| && i != j
    requires ActorOk(sys, i) && ActorOk(sys, j) && StepOk(sys, sys', i)
    ensures ActorOk(sys', j)
  {
    hide Inv;
    assert sys'.actors[j] == sys.actors[j];
  }

  lemma ActorStep(h: Hasher, sys: Sys, i: nat, c: Choice, now: Time)
    requires SysInv(sys) && i < |sys.actors|
    ensures SysInv(Advance(h, sys, i, c, now))
  {
    var sys' := Advance(h, sys, i, c, now);
    AdvanceStep(h, sys, i, c, now);
    hide Advance, GlobalOk;
    forall j | 0 <= j < |sys'.actors| ensures ActorOk(sys', j) {
      if j != i {
        OthersStay(sys, sys', i, j);
      }
    }
  }

  lemma TakeKeeps(h: Hasher, sys: Sys, m: Move)
    requires SysInv(sys)
    ensures SysInv(Take(h, sys, m))
  {
    match m {
      case Join(k) =>
        var sys' := Take(h, sys, m);
        forall j | 0 <= j < |sys'.actors| ensures ActorOk(sys', j) {
          if j < |sys.actors| {
            assert ActorOk(sys, j);
          }
        }
      case Step(i, c, now) =>
        if i < |sys.actors| {
          ActorStep(h, sys, i, c, now);
        }
    }
  }

  lemma {:induction false} PlayKeeps(h: Hasher, sys: Sys, ms: seq<Move>)
    requires SysInv(sys)
    ensures SysInv(Play(h, sys, ms))
    decreases |ms|
  {
    if ms != [] {
      TakeKeeps(h, sys, ms[0]);
      PlayKeeps(h, Take(h, sys, ms[0]), ms[1..]);
    }
  }

  // ---- what callers rely on ----

  /**
   * In every interleaving: one decision at most is accepted, the executor starts at most once, a gated action
   * starts only after an approval that names its principal, and a rejected session's action never starts.
   */
  lemma GateHolds(h: Hasher, s: State, gated: bool, ms: seq<Move>)
    requires Inv(s) && s.status == Pending
    ensures var sys := Play(h, Init(s, gated), ms);
            && sys.wins <= 1 && sys.starts <= 1
            && (gated && sys.starts > 0 ==>
                  sys.winner.Approved? && sys.s.decision.Some? && sys.s.decision.value.principal != "")
            && (sys.winner.Declined? || sys.s.status == Rejected ==> sys.starts == 0)
  {
    InitOk(s, gated);
    PlayKeeps(h, Init(s, gated), ms);
    GatedUnchanged(h, Init(s, gated), ms);
  }

  lemma {:induction false} GatedUnchanged(h: Hasher, sys: Sys, ms: seq<Move>)
    ensures Play(h, sys, ms).gated == sys.gated
    decreases |ms|
  {
    if ms != [] {
      GatedUnchanged(h, Take(h, sys, ms[0]), ms[1..]);
    }
  }

  predicate Deciding(a: Actor) {
    (a.kind.Approver? && a.pc.ToApprove?) || (a.kind.Rejecter? && a.pc.ToReject?)
  }

  /** Once a decision is accepted, every later one is refused and leaves the session as it is. */
  lemma LaterDecisionsLose(h: Hasher, sys: Sys, i: nat, c: Choice, now: Time)
    requires SysInv(sys) && sys.wins == 1 && i < |sys.actors| && Deciding(sys.actors[i])
    ensures var sys' := Advance(h, sys, i, c, now);
            sys'.s == sys.s && sys'.winner == sys.winner && sys'.actors[i].pc == Done
  {
    assert ActorOk(sys, i);
  }

  /** While the session waits, a decision wins iff it names a principal. */
  lemma FirstDecisionWins(h: Hasher, sys: Sys, i: nat, now: Time)
    requires SysInv(sys) && sys.s.status == AwaitingApproval && i < |sys.actors| && Deciding(sys.actors[i])
    ensures var sys' := Advance(h, sys, i, Ok, now);
            && (sys'.wins == 1 <==> sys.actors[i].kind.decision.principal != "")
            && (sys'.wins == 1 <==> sys'.s != sys.s)
  {
  }

  // ---- the session is never left stuck ----

  predicate Settled(sys: Sys) {
    IsTerminal(sys.s.status) || sys.s.status == AwaitingApproval || sys.winner.Approved?
  }

  /** Where the background run has nothing left to do but drain. */
  predicate Leaving(pc: Pc) {
    pc == Done || pc == Draining(Returned)
  }

  predicate SettledOnLeaving(sys: Sys) {
    |sys.actors| > 0 && (Leaving(sys.actors[0].pc) ==> Settled(sys))
  }

  /** One actor moves; an ended session stays ended, and the winner changes only while the session waits. */
  predicate OneMove(sys: Sys, sys': Sys, i: nat) {
    && |sys'.actors| == |sys.actors|
    && (forall j | 0 <= j < |sys.actors| && j != i :: sys'.actors[j] == sys.actors[j])
    && (IsTerminal(sys.s.status) ==> IsTerminal(sys'.s.status))
    && (sys'.winner == sys.winner || sys.s.status == AwaitingApproval)
  }

  lemma PerformMoves(h: Hasher, sys: Sys, i: nat, op: Op, onOk: Pc, onErr: Pc)
    requires i < |sys.actors|
    ensures OneMove(sys, Perform(h, sys, i, op, onOk, onErr), i)
  {
  }

  lemma DecideMoves(h: Hasher, sys: Sys, i: nat, op: Op, w: Winner, onOk: Pc)
    requires i < |sys.actors| && (op.Approve? || op.Reject?)
    ensures OneMove(sys, Decide(h, sys, i, op, w, onOk), i)
  {
    hide Perform, Apply;
    PerformMoves(h, sys, i, op, onOk, Done);
    DecidedWhileWaiting(h, sys.s, op);
  }

  lemma DecidedWhileWaiting(h: Hasher, s: State, op: Op)
    requires op.Approve? || op.Reject?
    ensures Apply(h, s, op).1 ==> s.status == AwaitingApproval
  {
  }

  lemma GoMoves(sys: Sys, i: nat, pc: Pc)
    requires i < |sys.actors|
    ensures OneMove(sys, To(sys, i, pc), i)
    ensures OneMove(sys, To(sys.(starts := sys.starts + 1), i, pc), i)
  {
  }

  lemma DecisionMoves(h: Hasher, sys: Sys, i: nat, c: Choice, now: Time)
    requires i < |sys.actors|
    ensures OneMove(sys, AdvanceDecision(h, sys, i, c, now), i)
  {
    hide Decide, To, Apply, OneMove;
    var a := sys.actors[i];
    GoMoves(sys, i, Done);
    if a.pc.ToApprove? && a.kind.Approver? {
      DecideMoves(h, sys, i, Op.Approve(a.kind.decision, now), Approved(i), ResumeRead);
    } else if a.pc.ToReject? && a.kind.Rejecter? {
      var reason := Failure("REJECTED", a.kind.decision.rationale);
      DecideMoves(h, sys, i, Op.Reject(reason, a.kind.decision, now), Declined(i), Done);
    } else if a.pc.ResumeRead? {
      GoMoves(sys, i, if sys.s.status != Running then Draining(Failing) else ResumeLimits);
    } else if a.pc.ResumeLimits? {
      GoMoves(sys, i, if c.Err? then Draining(Failing) else ToRun);
    } else if !a.pc.ToApprove? && !a.pc.ToReject? {
      StayMoves(sys, i);
    }
  }

  lemma StayMoves(sys: Sys, i: nat)
    ensures OneMove(sys, sys, i)
  {
  }

  lemma ExecuteMoves(h: Hasher, sys: Sys, i: nat, c: Choice, now: Time)
    requires i < |sys.actors|
    ensures OneMove(sys, AdvanceExecute(h, sys, i, c, now), i)
  {
    hide Perform, To, Apply, OneMove;
    GoMoves(sys, i, if c.Err? then Draining(Failing) else ToValidate);
    GoMoves(sys, i, Draining(Failing));
    GoMoves(sys, i, ToRun);
    StayMoves(sys, i);
    PerformMoves(h, sys, i, MarkValidated(now), ToPublish, Draining(Failing));
    PerformMoves(h, sys, i, PullEvents, ToResolve, ToResolve);
    PerformMoves(h, sys, i, MarkResolved(if c.Names? then c.caps else []), ToGate, Draining(Failing));
    PerformMoves(h, sys, i, MarkAwaitingApproval(now), Draining(Returned), Draining(Failing));
  }

  lemma RunMoves(h: Hasher, sys: Sys, i: nat, c: Choice, now: Time)
    requires i < |sys.actors|
    ensures OneMove(sys, AdvanceRun(h, sys, i, c, now), i)
  {
    hide Perform, Apply, OneMove;
    GoMoves(sys, i, if c.Err? then Draining(Failing) else ReadStatus);
    GoMoves(sys, i, if sys.s.status != Running then ToMarkRunning else ToStart);
    GoMoves(sys, i, Executing);
    StayMoves(sys, i);
    PerformMoves(h, sys, i, MarkRunning, ToStart, Draining(Failing));
    if c.Fails? {
      PerformMoves(h, sys, i, Fail(c.reason, now), Draining(Failing), Draining(Failing));
    }
  }

  lemma OutcomeMoves(h: Hasher, sys: Sys, i: nat, c: Choice, now: Time)
    requires i < |sys.actors|
    ensures OneMove(sys, AdvanceOutcome(h, sys, i, c, now), i)
  {
    hide Perform, To, Apply, OneMove;
    GoMoves(sys, i, Recording);
    GoMoves(sys, i, Finishing);
    StayMoves(sys, i);
    PerformMoves(h, sys, i, Fail(ReasonOr(c, FAILED), now), Draining(Returned), Draining(Failing));
    if c.Chunked? {
      PerformMoves(h, sys, i, Emit(c.chunk, now), Executing, Executing);
    } else if c.Reported? {
      PerformMoves(h, sys, i, AppendEvidence(c.record, now), Recording, Recording);
    } else if c.Answers? {
      PerformMoves(h, sys, i, Succeed(c.result, now), Draining(Returned), Draining(Failing));
    }
  }

  lemma EndMoves(h: Hasher, sys: Sys, i: nat, c: Choice, now: Time)
    requires i < |sys.actors|
    ensures OneMove(sys, AdvanceEnd(h, sys, i, c, now), i)
  {
    hide Perform, To, Apply, OneMove, ReasonOr;
    var a := sys.actors[i];
    GoMoves(sys, i, if IsTerminal(sys.s.status) then Done else ErroredStillOpen);
    GoMoves(sys, i, if sys.s.status == AwaitingApproval then Done else Aborting);
    StayMoves(sys, i);
    PerformMoves(h, sys, i, Abort(ReasonOr(c, FAILED), now), Done, Done);
    PerformMoves(h, sys, i, Fail(ReasonOr(c, PANIC), now), Done, PanicAborting);
    PerformMoves(h, sys, i, Abort(ReasonOr(c, PANIC), now), Done, Done);
    if a.pc.Draining? {
      PerformMoves(h, sys, i, PullEvents, AfterDrain(a.kind, a.pc.exit), Done);
    }
  }

  lemma AdvanceMoves(h: Hasher, sys: Sys, i: nat, c: Choice, now: Time)
    requires i < |sys.actors|
    ensures OneMove(sys, Advance(h, sys, i, c, now), i)
  {
    hide AdvanceDecision, AdvanceExecute, AdvanceRun, AdvanceOutcome, AdvanceEnd, OneMove, To;
    GoMoves(sys, i, Unwind(sys.actors[i]));
    DecisionMoves(h, sys, i, c, now);
    ExecuteMoves(h, sys, i, c, now);
    RunMoves(h, sys, i, c, now);
    OutcomeMoves(h, sys, i, c, now);
    EndMoves(h, sys, i, c, now);
  }

  lemma OthersSettle(h: Hasher, sys: Sys, i: nat, c: Choice, now: Time)
    requires SysInv(sys) && 0 < i < |sys.actors| && Settled(sys)
    ensures Settled(Advance(h, sys, i, c, now))
  {
    hide Inv, Advance, GlobalOk;
    AdvanceMoves(h, sys, i, c, now);
    if sys.s.status == AwaitingApproval {
      assert ActorOk(sys, i);
      WaitingDecided(h, sys, i, c, now);
    } else if !IsTerminal(sys.s.status) {
      assert sys.winner.Approved?;
    }
  }

  /** While the session waits, a caller can only decide or leave. */
  lemma WaitingDecided(h: Hasher, sys: Sys, i: nat, c: Choice, now: Time)
    requires GlobalOk(sys) && 0 < i < |sys.actors| && ActorOk(sys, i) && sys.s.status == AwaitingApproval
    ensures Settled(Advance(h, sys, i, c, now))
  {
  }

  lemma ExecuteSettles(h: Hasher, sys: Sys, c: Choice, now: Time)
    requires |sys.actors| > 0 && (var pc := sys.actors[0].pc;
               pc.Start? || pc.ToValidate? || pc.ToPublish? || pc.ToResolve? || pc.ToGate?)
    ensures SettledOnLeaving(AdvanceExecute(h, sys, 0, c, now))
  {
  }

  lemma RunSettles(h: Hasher, sys: Sys, c: Choice, now: Time)
    requires |sys.actors| > 0 && (var pc := sys.actors[0].pc;
               pc.ToRun? || pc.ReadStatus? || pc.ToMarkRunning? || pc.ToStart?)
    ensures SettledOnLeaving(AdvanceRun(h, sys, 0, c, now))
  {
  }

  lemma OutcomeSettles(h: Hasher, sys: Sys, c: Choice, now: Time)
    requires |sys.actors| > 0 && (var pc := sys.actors[0].pc; pc.Executing? || pc.Recording? || pc.Finishing?)
    ensures SettledOnLeaving(AdvanceOutcome(h, sys, 0, c, now))
  {
  }

  lemma EndSettles(h: Hasher, sys: Sys, c: Choice, now: Time)
    requires SettledOnLeaving(sys) && sys.actors[0].kind.Background?
    ensures SettledOnLeaving(AdvanceEnd(h, sys, 0, c, now))
  {
    hide Apply, Inv;
    var a := sys.actors[0];
    if a.pc.Draining? {
      DrainKeeps(h, sys.s);
    } else if a.pc.Aborting? {
      AbortEnds(h, sys.s, ReasonOr(c, FAILED), now);
    } else if a.pc.Panicked? || a.pc.PanicAborting? {
      AbortEnds(h, sys.s, ReasonOr(c, PANIC), now);
    }
  }

  lemma DrainKeeps(h: Hasher, s: State)
    ensures Apply(h, s, PullEvents).0.status == s.status && Apply(h, s, PullEvents).1
  {
  }

  lemma AbortEnds(h: Hasher, s: State, reason: Failure, now: Time)
    ensures IsTerminal(Apply(h, s, Op.Abort(reason, now)).0.status)
    ensures Apply(h, s, Op.Fail(reason, now)).1 ==> IsTerminal(Apply(h, s, Op.Fail(reason, now)).0.status)
  {
  }

  lemma BackgroundSettles(h: Hasher, sys: Sys, c: Choice, now: Time)
    requires SysInv(sys) && SettledOnLeaving(sys)
    ensures SettledOnLeaving(Advance(h, sys, 0, c, now))
  {
    hide GlobalOk, AdvanceDecision, AdvanceExecute, AdvanceRun, AdvanceOutcome, AdvanceEnd, Settled;
    assert ActorOk(sys, 0);
    var a := sys.actors[0];
    if !(c.Panic? && !Recovering(a.pc)) {
      if a.pc.Start? || a.pc.ToValidate? || a.pc.ToPublish? || a.pc.ToResolve? || a.pc.ToGate? {
        ExecuteSettles(h, sys, c, now);
      } else if a.pc.ToRun? || a.pc.ReadStatus? || a.pc.ToMarkRunning? || a.pc.ToStart? {
        RunSettles(h, sys, c, now);
      } else if a.pc.Executing? || a.pc.Recording? || a.pc.Finishing? {
        OutcomeSettles(h, sys, c, now);
      } else {
        EndSettles(h, sys, c, now);
      }
    }
  }

  lemma {:induction false} PlaySettles(h: Hasher, sys: Sys, ms: seq<Move>)
    requires SysInv(sys) && SettledOnLeaving(sys)
    ensures SysInv(Play(h, sys, ms)) && SettledOnLeaving(Play(h, sys, ms))
    decreases |ms|
  {
    hide SysInv, Advance, Settled;
    if ms != [] {
      TakeKeeps(h, sys, ms[0]);
      TakeSettles(h, sys, ms[0]);
      PlaySettles(h, Take(h, sys, ms[0]), ms[1..]);
    }
  }

  lemma TakeSettles(h: Hasher, sys: Sys, m: Move)
    requires SysInv(sys) && SettledOnLeaving(sys)
    ensures SettledOnLeaving(Take(h, sys, m))
  {
    hide Advance, GlobalOk, Inv;
    if m.Step? && m.who < |sys.actors| {
      AdvanceMoves(h, sys, m.who, m.choice, m.now);
      if m.who == 0 {
        BackgroundSettles(h, sys, m.choice, m.now);
      } else if Leaving(sys.actors[0].pc) {
        OthersSettle(h, sys, m.who, m.choice, m.now);
      }
    }
  }

  /** In every interleaving, when the background run is done the session is over, waits, or was approved. */
  lemma NeverStuck(h: Hasher, s: State, gated: bool, ms: seq<Move>)
    requires Inv(s) && s.status == Pending
    ensures var sys := Play(h, Init(s, gated), ms);
            && |sys.actors| > 0
            && (sys.actors[0].pc == Done ==>
                  IsTerminal(sys.s.status) || sys.s.status == AwaitingApproval || sys.winner.Approved?)
  {
    InitOk(s, gated);
    PlaySettles(h, Init(s, gated), ms);
  }

  // ---- events that stay unpublished ----

  /** The actor still has a drain of its own to come. */
  predicate DrainAhead(pc: Pc) {
    && !pc.ToApprove? && !pc.ToReject? && !pc.Done?
    && !pc.Errored? && !pc.ErroredStillOpen? && !pc.Aborting? && !pc.Panicked? && !pc.PanicAborting?
  }

  predicate NoDrainAhead(sys: Sys) {
    forall i | 0 <= i < |sys.actors| :: !DrainAhead(sys.actors[i].pc)
  }

  /** Once the session is over and nobody has a drain to come, it never changes again. */
  lemma TakeFrozen(h: Hasher, sys: Sys, m: Move)
    requires IsTerminal(sys.s.status) && NoDrainAhead(sys)
    ensures Take(h, sys, m).s == sys.s && NoDrainAhead(Take(h, sys, m))
  {
    if m.Step? && m.who < |sys.actors| {
      assert !DrainAhead(sys.actors[m.who].pc);
    }
  }

  lemma {:induction false} Frozen(h: Hasher, sys: Sys, ms: seq<Move>)
    requires IsTerminal(sys.s.status) && NoDrainAhead(sys)
    ensures Play(h, sys, ms).s == sys.s
    decreases |ms|
  {
    if ms != [] {
      TakeFrozen(h, sys, ms[0]);
      hide Take, NoDrainAhead;
      Frozen(h, Take(h, sys, ms[0]), ms[1..]);
    }
  }

  ghost predicate CanBePublished(h: Hasher, sys: Sys) {
    exists ms :: Play(h, sys, ms).s.pending == []
  }

  lemma PlayTwo(h: Hasher, sys: Sys, a: Move, b: Move)
    ensures Play(h, sys, [a]) == Take(h, sys, a)
    ensures Play(h, sys, [a, b]) == Take(h, Take(h, sys, a), b)
  {
    hide Take;
    assert [a][1..] == [] && [a, b][1..] == [b] && [b][1..] == [];
    assert Play(h, Take(h, sys, a), [b]) == Play(h, Take(h, Take(h, sys, a), b), []);
  }

  lemma DrainComes(h: Hasher, sys: Sys, i: nat)
    requires i < |sys.actors| && DrainAhead(sys.actors[i].pc)
    ensures CanBePublished(h, sys)
  {
    var drain := Step(i, Ok, 0);
    if sys.actors[i].pc.Draining? {
      PlayTwo(h, sys, drain, drain);
      assert Play(h, sys, [drain]).s.pending == [];
    } else {
      var panic := Step(i, Panic, 0);
      PlayTwo(h, sys, panic, drain);
      assert Take(h, sys, panic).actors[i].pc == Draining(Panicking);
      assert Play(h, sys, [panic, drain]).s.pending == [];
    }
  }

  /**
   * What a finished session has not published yet can still be published iff some actor has a drain to come.
   * RejectSession has none, nor has the goroutine's Abort: what they raise depends on the others.
   */
  lemma PublishedIffDrainAhead(h: Hasher, sys: Sys)
    requires IsTerminal(sys.s.status) && sys.s.pending != []
    ensures CanBePublished(h, sys) <==> !NoDrainAhead(sys)
  {
    hide Play, Take;
    if CanBePublished(h, sys) && NoDrainAhead(sys) {
      var ms :| Play(h, sys, ms).s.pending == [];
      Frozen(h, sys, ms);
      assert false;
    }
    if !NoDrainAhead(sys) {
      var i :| 0 <= i < |sys.actors| && DrainAhead(sys.actors[i].pc);
      DrainComes(h, sys, i);
    }
  }

  /** A rejection after the background run has drained raises a completion that is never published. */
  lemma RejectionUnpublished(h: Hasher, sys: Sys, i: nat, c: Choice, now: Time, ms: seq<Move>)
    requires sys.s.status == AwaitingApproval && NoDrainAhead(sys) && i < |sys.actors| && !c.Panic?
    requires sys.actors[i].pc == ToReject && sys.actors[i].kind.Rejecter?
    requires sys.actors[i].kind.decision.principal != ""
    ensures var sys' := Advance(h, sys, i, c, now);
            && sys'.s.status == Rejected && sys'.s.pending != []
            && sys'.s.pending[|sys'.s.pending| - 1].SessionCompleted?
            && NoDrainAhead(sys') && Play(h, sys', ms).s == sys'.s
  {
    var sys' := Advance(h, sys, i, c, now);
    assert NoDrainAhead(sys');
    Frozen(h, sys', ms);
  }

  /** The same for an abort that ends the session. */
  lemma AbortUnpublished(h: Hasher, sys: Sys, i: nat, c: Choice, now: Time, ms: seq<Move>)
    requires !IsTerminal(sys.s.status) && NoDrainAhead(sys) && i < |sys.actors| && !c.Panic?
    requires sys.actors[i].pc == Aborting || sys.actors[i].pc == PanicAborting
    ensures var sys' := Advance(h, sys, i, c, now);
            && sys'.s.status == Failed && sys'.s.pending != []
            && sys'.s.pending[|sys'.s.pending| - 1].SessionCompleted?
            && NoDrainAhead(sys') && Play(h, sys', ms).s == sys'.s
  {
    var sys' := Advance(h, sys, i, c, now);
    assert NoDrainAhead(sys');
    Frozen(h, sys', ms);
  }

  lemma {:induction false} PlayConcat(h: Hasher, sys: Sys, a: seq<Move>, b: seq<Move>)
    ensures Play(h, sys, a + b) == Play(h, Play(h, sys, a), b)
    decreases |a|
  {
    hide Take;
    if a == [] {
      assert a + b == b;
    } else {
      assert (a + b)[0] == a[0] && (a + b)[1..] == a[1..] + b;
      PlayConcat(h, Take(h, sys, a[0]), a[1..], b);
    }
  }
}
