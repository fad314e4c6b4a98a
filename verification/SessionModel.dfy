/**
 * The execution session as a value: its state, what each operation does to it, and what every sequence
 * of operations keeps.
 */
module SessionModel {
  import opened Evidence

  datatype Option<+T> = None | Some(value: T)

  datatype Status =
    | Pending | Validated | Resolved | AwaitingApproval | Running
    | Succeeded | Failed | Rejected
    | Unrecognised(text: string)

  predicate IsTerminal(s: Status) {
    s.Succeeded? || s.Failed? || s.Rejected?
  }

  datatype Decision = Decision(principal: string, rationale: string)

  datatype Failure = Failure(code: string, message: string)

  datatype Suggestion = Suggestion(action: string, description: string)

  datatype Result = Result(data: Any, summary: string, contentType: string, suggestions: seq<Suggestion>)

  /** A time.Time: nanoseconds since 1970; the zero Time is the first instant of year 1. */
  type Time = int

  const ZERO_TIME: Time := -62135596800_000_000_000

  datatype Chunk = Chunk(index: nat, kind: string, data: Any, contentType: string, at: Time)

  datatype Event =
    | SessionStarted(at: Time)
    | SessionAwaitingApproval(at: Time)
    | SessionApproved(principal: string, at: Time)
    | SessionCompleted(status: Status, duration: int, at: Time)
    | ResultChunkEmitted(chunk: Chunk, at: Time)
    | EvidenceRecorded(kind: string, tokens: int, hash: Hash, at: Time)
    | TokensExceeded(at: Time)  // BudgetExceeded for tokens; raised by the service, not by the session

  datatype State = State(
    id: string,
    actionName: string,
    input: Any,
    status: Status,
    requiresApproval: bool,
    capabilities: seq<string>,
    evidence: seq<Record>,
    result: Option<Result>,
    failure: Option<Failure>,
    decision: Option<Decision>,
    startedAt: Time,
    chunks: seq<Chunk>,
    pending: seq<Event>)

  function NewSession(id: string, actionName: string, input: Any): Option<State> {
    if id == "" || actionName == "" then None
    else Some(State(id, actionName, input, Pending, false, [], [], None, None, None, ZERO_TIME, [], []))
  }

  // ---- operations ----

  /** The mutating operations, with the clock reading each one takes. */
  datatype Op =
    | MarkValidated(now: Time)
    | MarkResolved(caps: seq<string>)
    | MarkAwaitingApproval(now: Time)
    | Approve(decision: Decision, now: Time)
    | Reject(reason: Failure, decision: Decision, now: Time)
    | MarkRunning
    | Succeed(result: Result, now: Time)
    | Fail(reason: Failure, now: Time)
    | Abort(reason: Failure, now: Time)
    | Emit(chunk: Chunk, now: Time)
    | AppendEvidence(record: Record, now: Time)
    | PullEvents

  /** validTransitions. */
  function ValidTransition(s: Status): Option<Status> {
    match s
    case Pending => Some(Validated)
    case Validated => Some(Resolved)
    case Resolved => Some(Running)
    case AwaitingApproval => Some(Running)
    case Running => Some(Succeeded)
    case _ => None
  }

  function Raise(s: State, e: Event): State {
    s.(pending := s.pending + [e])
  }

  function Completed(s: State, now: Time): State {
    Raise(s, SessionCompleted(s.status, if s.startedAt == ZERO_TIME then 0 else now - s.startedAt, now))
  }

  function Stamp(s: State, c: Chunk, now: Time): Chunk {
    c.(index := |s.chunks|, at := if c.at == ZERO_TIME then now else c.at)
  }

  /** The state after an operation, and whether it reported success. */
  function Apply(h: Hasher, s: State, op: Op): (State, bool) {
    match op
    case MarkValidated(now) =>
      if ValidTransition(s.status) == Some(Validated) then
        (Raise(s.(status := Validated, startedAt := now), SessionStarted(now)), true)
      else (s, false)
    case MarkResolved(caps) =>
      if ValidTransition(s.status) == Some(Resolved) then (s.(status := Resolved, capabilities := caps), true)
      else (s, false)
    case MarkAwaitingApproval(now) =>
      if s.status == Resolved then
        (Raise(s.(status := AwaitingApproval, requiresApproval := true), SessionAwaitingApproval(now)), true)
      else (s, false)
    case Approve(d, now) =>
      if d.principal != "" && s.status == AwaitingApproval then
        (Raise(s.(decision := Some(d), status := Running), SessionApproved(d.principal, now)), true)
      else (s, false)
    case Reject(reason, d, now) =>
      if d.principal != "" && s.status == AwaitingApproval then
        (Completed(s.(decision := Some(d), status := Rejected, failure := Some(reason)), now), true)
      else (s, false)
    case MarkRunning =>
      if ValidTransition(s.status) == Some(Running) then (s.(status := Running), true) else (s, false)
    case Succeed(r, now) =>
      if ValidTransition(s.status) == Some(Succeeded) then
        (Completed(s.(status := Succeeded, result := Some(r)), now), true)
      else (s, false)
    case Fail(reason, now) =>
      if s.status == Running then (Completed(s.(status := Failed, failure := Some(reason)), now), true)
      else (s, false)
    case Abort(reason, now) =>
      if IsTerminal(s.status) then (s, true)
      else (Completed(s.(status := Failed, failure := Some(reason)), now), true)
    case Emit(c, now) =>
      var stamped := Stamp(s, c, now);
      (Raise(s.(chunks := s.chunks + [stamped]), ResultChunkEmitted(stamped, stamped.at)), true)
    case AppendEvidence(r, now) =>
      var evidence := Append(h, s.evidence, r);
      var stamped := evidence[|s.evidence|];
      (Raise(s.(evidence := evidence), EvidenceRecorded(stamped.kind, stamped.tokens, stamped.hash, now)), true)
    case PullEvents => (s.(pending := []), true)
  }

  function Run(h: Hasher, s: State, ops: seq<Op>): State
    decreases |ops|
  {
    if ops == [] then s else Run(h, Apply(h, s, ops[0]).0, ops[1..])
  }

  /** The answers of the operations, in order. */
  function Answers(h: Hasher, s: State, ops: seq<Op>): seq<bool>
    decreases |ops|
  {
    if ops == [] then [] else [Apply(h, s, ops[0]).1] + Answers(h, Apply(h, s, ops[0]).0, ops[1..])
  }

  lemma {:induction false} RunConcat(h: Hasher, s: State, a: seq<Op>, b: seq<Op>)
    ensures Run(h, s, a + b) == Run(h, Run(h, s, a), b)
    ensures Answers(h, s, a + b) == Answers(h, s, a) + Answers(h, Run(h, s, a), b)
    decreases |a|
  {
    if a == [] {
      assert a + b == b;
    } else {
      assert (a + b)[0] == a[0] && (a + b)[1..] == a[1..] + b;
      RunConcat(h, Apply(h, s, a[0]).0, a[1..], b);
    }
  }

  // ---- events ----

  /** The event an operation raises, read off the state change alone. */
  function Raised(h: Hasher, s: State, op: Op): seq<Event> {
    var (s', ok) := Apply(h, s, op);
    match op
    case MarkValidated(now) => if ok then [SessionStarted(now)] else []
    case MarkAwaitingApproval(now) => if ok then [SessionAwaitingApproval(now)] else []
    case Approve(d, now) => if ok then [SessionApproved(d.principal, now)] else []
    case Emit(_, _) => var c := s'.chunks[|s.chunks|]; [ResultChunkEmitted(c, c.at)]
    case AppendEvidence(_, now) =>
      var r := s'.evidence[|s.evidence|];
      [EvidenceRecorded(r.kind, r.tokens, r.hash, now)]
    case Reject(_, _, now) => CompletionOf(s, s', now)
    case Succeed(_, now) => CompletionOf(s, s', now)
    case Fail(_, now) => CompletionOf(s, s', now)
    case Abort(_, now) => CompletionOf(s, s', now)
    case _ => []
  }

  /** A completion is raised exactly when the session becomes terminal. */
  function CompletionOf(s: State, s': State, now: Time): seq<Event> {
    if !IsTerminal(s.status) && IsTerminal(s'.status) then
      [SessionCompleted(s'.status, if s.startedAt == ZERO_TIME then 0 else now - s.startedAt, now)]
    else []
  }

  function AllRaised(h: Hasher, s: State, ops: seq<Op>): seq<Event>
    decreases |ops|
  {
    if ops == [] then [] else Raised(h, s, ops[0]) + AllRaised(h, Apply(h, s, ops[0]).0, ops[1..])
  }

  /** What a sequence of operations hands to the publisher. */
  function Published(h: Hasher, s: State, ops: seq<Op>): seq<Event>
    decreases |ops|
  {
    if ops == [] then []
    else (if ops[0].PullEvents? then s.pending else []) + Published(h, Apply(h, s, ops[0]).0, ops[1..])
  }

  lemma StepConserves(h: Hasher, s: State, op: Op)
    ensures (if op.PullEvents? then s.pending else []) + Apply(h, s, op).0.pending == s.pending + Raised(h, s, op)
  {
  }

  lemma Regroup(out: seq<Event>, later: seq<Event>, end: seq<Event>, mid: seq<Event>, rest: seq<Event>,
                first: seq<Event>, raised: seq<Event>)
    requires out + mid == first + raised && later + end == mid + rest
    ensures (out + later) + end == first + (raised + rest)
  {
    assert (out + later) + end == out + (later + end);
    assert out + (mid + rest) == (out + mid) + rest;
    assert (first + raised) + rest == first + (raised + rest);
  }

  /** Published and still pending events are the raised ones, in order, none lost and none repeated. */
  lemma {:induction false} EventsConserved(h: Hasher, s: State, ops: seq<Op>)
    ensures Published(h, s, ops) + Run(h, s, ops).pending == s.pending + AllRaised(h, s, ops)
    decreases |ops|
  {
    if ops != [] {
      var s' := Apply(h, s, ops[0]).0;
      StepConserves(h, s, ops[0]);
      EventsConserved(h, s', ops[1..]);
      var out := if ops[0].PullEvents? then s.pending else [];
      var later := Published(h, s', ops[1..]);
      var rest := AllRaised(h, s', ops[1..]);
      var end := Run(h, s', ops[1..]).pending;
      assert Published(h, s, ops) == out + later && Run(h, s, ops).pending == end;
      assert AllRaised(h, s, ops) == Raised(h, s, ops[0]) + rest;
      hide Apply, Raised, Run, Published, AllRaised;
      Regroup(out, later, end, s'.pending, rest, s.pending, Raised(h, s, ops[0]));
    }
  }

  // ---- invariants ----

  predicate Recognised(s: Status) {
    !s.Unrecognised?
  }

  /** How far a status is from an end. */
  function Rank(s: Status): nat {
    match s
    case Pending => 5
    case Validated => 4
    case Resolved => 3
    case AwaitingApproval => 2
    case Running => 1
    case Unrecognised(_) => 1
    case _ => 0
  }

  /** What holds in every session that was built by NewSession and changed by operations only. */
  predicate Inv(s: State) {
    && s.id != "" && s.actionName != ""
    && Recognised(s.status)
    && (s.result.Some? <==> s.status == Succeeded)
    && (s.failure.Some? <==> s.status == Failed || s.status == Rejected)
    && (s.decision.Some? ==> s.requiresApproval && s.decision.value.principal != "" && Rank(s.status) <= 1)
    && (s.status == Rejected ==> s.decision.Some?)
    && (s.status == AwaitingApproval ==> s.requiresApproval)
    && (s.requiresApproval ==> Rank(s.status) <= 2)
    && (forall i | 0 <= i < |s.chunks| :: s.chunks[i].index == i)
  }

  lemma ApplyKeepsInv(h: Hasher, s: State, op: Op)
    requires Inv(s)
    ensures Inv(Apply(h, s, op).0)
  {
  }

  /** Refused operations change nothing; a terminal status never changes; a changed status has lower rank. */
  lemma ApplyIsMonotone(h: Hasher, s: State, op: Op)
    requires Recognised(s.status)
    ensures var (s', ok) := Apply(h, s, op);
            && (!ok ==> s' == s)
            && (s'.status != s.status ==> Rank(s'.status) < Rank(s.status))
            && (IsTerminal(s.status) ==>
                  && s'.status == s.status && s'.result == s.result
                  && s'.failure == s.failure && s'.decision == s.decision)
            && s.evidence <= s'.evidence && s.chunks <= s'.chunks
  {
  }

  function CountCompletions(events: seq<Event>): nat {
    if events == [] then 0 else (if events[0].SessionCompleted? then 1 else 0) + CountCompletions(events[1..])
  }

  lemma {:induction false} CompletionsConcat(a: seq<Event>, b: seq<Event>)
    ensures CountCompletions(a + b) == CountCompletions(a) + CountCompletions(b)
  {
    if a == [] {
      assert a + b == b;
    } else {
      assert (a + b)[1..] == a[1..] + b;
      CompletionsConcat(a[1..], b);
    }
  }

  /** Over any run: the invariant, absorption, and one completion event exactly when an end is reached. */
  lemma {:induction false} RunKeeps(h: Hasher, s: State, ops: seq<Op>)
    requires Inv(s)
    ensures var s' := Run(h, s, ops);
            && Inv(s')
            && Rank(s'.status) <= Rank(s.status)
            && (IsTerminal(s.status) ==>
                  && s'.status == s.status && s'.result == s.result
                  && s'.failure == s.failure && s'.decision == s.decision)
            && CountCompletions(AllRaised(h, s, ops))
               == (if IsTerminal(s'.status) && !IsTerminal(s.status) then 1 else 0)
    decreases |ops|
  {
    if ops != [] {
      var s' := Apply(h, s, ops[0]).0;
      ApplyKeepsInv(h, s, ops[0]);
      ApplyIsMonotone(h, s, ops[0]);
      RunKeeps(h, s', ops[1..]);
      CompletionsConcat(Raised(h, s, ops[0]), AllRaised(h, s', ops[1..]));
      RaisedCompletions(h, s, ops[0]);
    }
  }

  lemma RaisedCompletions(h: Hasher, s: State, op: Op)
    requires Inv(s)
    ensures CountCompletions(Raised(h, s, op)) ==
            if IsTerminal(Apply(h, s, op).0.status) && !IsTerminal(s.status) then 1 else 0
  {
    var r := Raised(h, s, op);
    if r != [] {
      assert r[1..] == [];
    }
  }

  /** At most five status changes happen in any run. */
  function Changes(h: Hasher, s: State, ops: seq<Op>): nat
    decreases |ops|
  {
    if ops == [] then 0
    else
      var s' := Apply(h, s, ops[0]).0;
      (if s'.status != s.status then 1 else 0) + Changes(h, s', ops[1..])
  }

  lemma {:induction false} ChangesBounded(h: Hasher, s: State, ops: seq<Op>)
    requires Inv(s)
    ensures Changes(h, s, ops) + Rank(Run(h, s, ops).status) <= Rank(s.status) <= 5
    decreases |ops|
  {
    if ops != [] {
      ApplyKeepsInv(h, s, ops[0]);
      ApplyIsMonotone(h, s, ops[0]);
      ChangesBounded(h, Apply(h, s, ops[0]).0, ops[1..]);
    }
  }

  /** The evidence chain verifies after any operations if it verified before them. */
  lemma {:induction false} RunKeepsChain(h: Hasher, s: State, ops: seq<Op>)
    requires Verified(h, s.evidence)
    ensures Verified(h, Run(h, s, ops).evidence)
    decreases |ops|
  {
    if ops != [] {
      if ops[0].AppendEvidence? {
        AppendKeepsVerified(h, s.evidence, ops[0].record);
      }
      RunKeepsChain(h, Apply(h, s, ops[0]).0, ops[1..]);
    }
  }

  /** A session that asked for approval and is past it has a decision on record, or was aborted. */
  predicate Past(s: State) {
    s.requiresApproval && Rank(s.status) <= 1 ==> s.decision.Some? || s.status == Failed
  }

  /** Every session from this one on, over these operations. */
  predicate AlwaysPast(h: Hasher, s: State, ops: seq<Op>)
    decreases |ops|
  {
    Past(s) && (ops != [] ==> AlwaysPast(h, Apply(h, s, ops[0]).0, ops[1..]))
  }

  /** No operation is MarkRunning applied to a waiting session. */
  predicate NeverSteppedOver(h: Hasher, s: State, ops: seq<Op>)
    decreases |ops|
  {
    ops != [] ==>
      && !(ops[0].MarkRunning? && s.status == AwaitingApproval)
      && NeverSteppedOver(h, Apply(h, s, ops[0]).0, ops[1..])
  }

  lemma {:induction false} AlwaysPastAt(h: Hasher, s: State, ops: seq<Op>, n: nat)
    requires n <= |ops|
    ensures AlwaysPast(h, s, ops) ==> Past(Run(h, s, ops[..n]))
    decreases |ops|
  {
    if n > 0 {
      assert ops[..n][0] == ops[0] && ops[..n][1..] == ops[1..][..n - 1];
      AlwaysPastAt(h, Apply(h, s, ops[0]).0, ops[1..], n - 1);
    }
  }

  lemma {:induction false} PastEverywhere(h: Hasher, s: State, ops: seq<Op>)
    requires forall n | 0 <= n <= |ops| :: Past(Run(h, s, ops[..n]))
    ensures AlwaysPast(h, s, ops)
    decreases |ops|
  {
    assert ops[..0] == [] && Run(h, s, []) == s;
    assert Past(Run(h, s, ops[..0]));
    if ops != [] {
      var s' := Apply(h, s, ops[0]).0;
      forall n | 0 <= n <= |ops[1..]| ensures Past(Run(h, s', ops[1..][..n])) {
        assert ops[..n + 1][0] == ops[0] && ops[..n + 1][1..] == ops[1..][..n];
        assert Past(Run(h, s, ops[..n + 1]));
      }
      PastEverywhere(h, s', ops[1..]);
    }
  }

  lemma PastStep(h: Hasher, s: State, op: Op)
    requires Inv(s) && Past(s)
    ensures Past(Apply(h, s, op).0) <==> !(op.MarkRunning? && s.status == AwaitingApproval)
  {
  }

  lemma {:induction false} PastUntilSteppedOver(h: Hasher, s: State, ops: seq<Op>)
    requires Inv(s) && Past(s)
    ensures AlwaysPast(h, s, ops) <==> NeverSteppedOver(h, s, ops)
    decreases |ops|
  {
    hide Past, Inv;
    if ops != [] {
      ApplyKeepsInv(h, s, ops[0]);
      PastStep(h, s, ops[0]);
      if Past(Apply(h, s, ops[0]).0) {
        PastUntilSteppedOver(h, Apply(h, s, ops[0]).0, ops[1..]);
      } else {
        NotPast(h, Apply(h, s, ops[0]).0, ops[1..]);
      }
    }
  }

  lemma NotPast(h: Hasher, s: State, ops: seq<Op>)
    ensures !Past(s) ==> !AlwaysPast(h, s, ops)
  {
  }

  /**
   * The gate of the aggregate, exactly: after every one of the operations a session past its approval has a
   * decision on record or was aborted, iff none of them is MarkRunning applied while it waits.
   */
  lemma ApprovalRecorded(h: Hasher, s: State, ops: seq<Op>)
    requires Inv(s) && Past(s)
    ensures (forall n | 0 <= n <= |ops| :: Past(Run(h, s, ops[..n]))) <==> NeverSteppedOver(h, s, ops)
  {
    hide Past, Inv, Run, AlwaysPast, NeverSteppedOver;
    PastUntilSteppedOver(h, s, ops);
    if forall n | 0 <= n <= |ops| :: Past(Run(h, s, ops[..n])) {
      PastEverywhere(h, s, ops);
    }
    if AlwaysPast(h, s, ops) {
      forall n | 0 <= n <= |ops| ensures Past(Run(h, s, ops[..n])) {
        AlwaysPastAt(h, s, ops, n);
      }
    }
  }

  /** The aggregate alone lets MarkRunning step over the approval it is waiting for. */
  lemma GateNotInAggregate(h: Hasher, s: State)
    requires s.status == AwaitingApproval
    ensures var (s', ok) := Apply(h, s, MarkRunning);
            ok && s'.status == Running && s'.decision == s.decision
  {
  }
}
