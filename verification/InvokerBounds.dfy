/** What the slot counter and the retry loop bound, for every way capabilities call one another. */
module InvokerBounds {
  import opened Evidence
  import opened Invoker
  import opened Numerals

  /** Most attempts one invocation can make. */
  function PerSlot<W(==)>(env: Env<W>): nat {
    1 + Retries(env)
  }

  function Invoked(log: seq<Event>): nat {
    if log == [] then 0 else (if log[0].CapabilityInvoked? then 1 else 0) + Invoked(log[1..])
  }

  function Retried(log: seq<Event>): nat {
    if log == [] then 0 else (if log[0].CapabilityRetried? then 1 else 0) + Retried(log[1..])
  }

  /** Invocations refused for want of a slot. */
  function Refused(log: seq<Event>): nat {
    if log == [] then 0 else (if log[0] == OverBudget(Invocations) then 1 else 0) + Refused(log[1..])
  }

  lemma {:induction false} CountAppend(log: seq<Event>, e: Event)
    ensures Invoked(log + [e]) == Invoked(log) + if e.CapabilityInvoked? then 1 else 0
    ensures Retried(log + [e]) == Retried(log) + if e.CapabilityRetried? then 1 else 0
    ensures Refused(log + [e]) == Refused(log) + if e == OverBudget(Invocations) then 1 else 0
  {
    if log == [] {
      assert log + [e] == [e];
      assert [e][1..] == [];
    } else {
      assert (log + [e])[1..] == log[1..] + [e];
      CountAppend(log[1..], e);
    }
  }

  /**
   * What any stretch of execution keeps, `own` being the attempts and `top` the invocations that the stretch
   * makes outside the slots it consumes itself.
   */
  ghost predicate Within<W>(env: Env<W>, s: State<W>, s': State<W>, own: nat, top: nat) {
    && s'.count >= s.count
    && s'.calls + SlotsLeft(env, s') * PerSlot(env) <= s.calls + SlotsLeft(env, s) * PerSlot(env) + own
    && s'.frames + SlotsLeft(env, s') <= s.frames + SlotsLeft(env, s)
    && Invoked(s'.log) + s.calls == Invoked(s.log) + s'.calls
    && Invoked(s'.log) + Retried(s.log) + s.frames == Invoked(s.log) + Retried(s'.log) + s'.frames + top
    && Refused(s'.log) + Excess(env, s) == Refused(s.log) + Excess(env, s')
  }

  /** Slots asked for beyond the last one. */
  function Excess<W(==)>(env: Env<W>, s: State<W>): nat {
    if s.count > env.maxInvocations && env.maxInvocations >= 0 then s.count - env.maxInvocations else 0
  }

  lemma SlotCost<W>(env: Env<W>, s: State<W>)
    requires env.maxInvocations > 0 && s.count < env.maxInvocations
    ensures SlotsLeft(env, s) * PerSlot(env) == SlotsLeft(env, s.(count := s.count + 1)) * PerSlot(env) + PerSlot(env)
  {
    var k, n := PerSlot(env), SlotsLeft(env, s);
    assert n * k == (n - 1) * k + k;
  }

  lemma {:induction false} InvokeWithin<W(!new)>(env: Env<W>, s: State<W>, name: Name, input: Any)
    requires env.maxInvocations > 0
    ensures Within(env, s, Invoke(env, s, name, input).0, 0, 0)
    decreases SlotsLeft(env, s), 0
  {
    var s1 := s.(count := s.count + 1);
    hide Attempts, Invoked, Retried, Refused;
    CountAppend(s1.log, OverBudget(Invocations));
    CountAppend(s1.log, OverBudget(Duration));
    if s1.count <= env.maxInvocations {
      SlotCost(env, s);
      if !env.expired(s1.w) && env.bind(name).Bound? {
        var s2 := s1.(frames := s1.frames + 1);
        AttemptsWithin(env, s2, name, env.bind(name).program, input, 0);
      }
    }
  }

  lemma {:induction false} AttemptWithin<W(!new)>(
    env: Env<W>, s: State<W>, name: Name, program: (Any, W) -> Body<W>, input: Any)
    requires env.maxInvocations > 0
    ensures Within(env, s, Attempt(env, s, name, program, input).0, 1, 1)
    decreases SlotsLeft(env, s), 2
  {
    hide RunBody, Invoked, Retried, Refused;
    var s0 := s.(calls := s.calls + 1);
    BodyWithin(env, s0, program(input, s.w));
    var (s1, o) := RunBody(env, s0, program(input, s.w));
    CountAppend(s1.log, CapabilityInvoked(name, o.Success?));
  }

  lemma {:induction false} AttemptsWithin<W(!new)>(
    env: Env<W>, s: State<W>, name: Name, program: (Any, W) -> Body<W>, input: Any, attempt: nat)
    requires env.maxInvocations > 0
    ensures Within(env, s, Attempts(env, s, name, program, input, attempt).0,
                   if attempt < Retries(env) then 1 + Retries(env) - attempt else 1, 1)
    decreases SlotsLeft(env, s), 3, if attempt < env.maxRetries then env.maxRetries - attempt else 0
  {
    hide Attempt, Invoked, Retried, Refused, Backoff, Delay;
    AttemptWithin(env, s, name, program, input);
    var (s1, o) := Attempt(env, s, name, program, input);
    if o.Failure? && env.idempotent && attempt < env.maxRetries && !env.cancelled(s1.w) {
      var (w, fired) := Backoff(env, s1.w, attempt);
      if fired {
        var s2 := s1.(w := w, log := s1.log + [CapabilityRetried(name, attempt + 1)]);
        CountAppend(s1.log, CapabilityRetried(name, attempt + 1));
        AttemptsWithin(env, s2, name, program, input, attempt + 1);
      }
    }
  }

  lemma {:induction false} BodyWithin<W(!new)>(env: Env<W>, s: State<W>, b: Body<W>)
    requires env.maxInvocations > 0
    ensures Within(env, s, RunBody(env, s, b).0, 0, 0)
    decreases SlotsLeft(env, s), 1, b
  {
    match b {
      case Return(_, _) =>
      case Call(name, input, at, resume) =>
        InvokeWithin(env, s.(w := at), name, input);
        var (s1, o) := Invoke(env, s.(w := at), name, input);
        if (o, s1.w) in resume {
          BodyWithin(env, s1, resume[(o, s1.w)]);
        }
    }
  }

  /**
   * A run of an action over a fresh invoker hands executors at most M * (1 + R) attempts, and at most M when
   * the action is not idempotent, for any nested or cyclic pattern of capabilities invoking one another.
   * Each attempt publishes one CapabilityInvoked, all but the first of each invocation one CapabilityRetried, and
   * each invocation that finds no slot one BudgetExceeded.
   */
  lemma TotalCallsBounded<W(!new)>(env: Env<W>, w: W, action: Body<W>)
    requires env.maxInvocations > 0
    ensures var s := RunBody(env, State(0, 0, 0, [], w), action).0;
            && s.calls <= env.maxInvocations * (1 + Retries(env))
            && (!env.idempotent ==> s.calls <= env.maxInvocations)
            && s.frames <= env.maxInvocations
            && Invoked(s.log) == s.calls
            && Retried(s.log) + s.frames == s.calls
            && Refused(s.log) == (if s.count > env.maxInvocations then s.count - env.maxInvocations else 0)
  {
    var start := State(0, 0, 0, [], w);
    BodyWithin(env, start, action);
    var s := RunBody(env, start, action).0;
    assert SlotsLeft(env, s) * PerSlot(env) >= 0;
  }

  /** An invocation that does not get to an executor: what it answers and publishes, and that nothing else moves. */
  lemma TurnedAway<W(!new)>(env: Env<W>, s: State<W>, name: Name, input: Any)
    requires env.maxInvocations > 0
    ensures var (s', o) := Invoke(env, s, name, input);
            && s'.count > s.count
            && (s.count >= env.maxInvocations ==>
                  && s' == s.(count := s.count + 1, log := s.log + [OverBudget(Invocations)])
                  && o == Failure(BudgetExceeded(Invocations)))
            && (s.count < env.maxInvocations && env.expired(s.w) ==>
                  && s' == s.(count := s.count + 1, log := s.log + [OverBudget(Duration)])
                  && o == Failure(BudgetExceeded(Duration)))
            && (s.count < env.maxInvocations && !env.expired(s.w) && !env.bind(name).Bound? ==>
                  && s' == s.(count := s.count + 1)
                  && o == Failure(if env.bind(name).Unresolved? then NotAvailable(name) else Error.NoExecutor(name)))
  {
  }

  // ---- how the loop ends ----

  /** The state in which attempt j starts when every earlier one failed and was retried. */
  ghost function Before<W(!new)>(
    env: Env<W>, s: State<W>, name: Name, program: (Any, W) -> Body<W>, input: Any, j: nat): State<W>
    requires env.maxInvocations > 0
  {
    if j == 0 then s
    else
      var s1 := Attempt(env, Before(env, s, name, program, input, j - 1), name, program, input).0;
      s1.(w := Backoff(env, s1.w, j - 1).0, log := s1.log + [CapabilityRetried(name, j)])
  }

  ghost function Answer<W(!new)>(
    env: Env<W>, s: State<W>, name: Name, program: (Any, W) -> Body<W>, input: Any, j: nat): (State<W>, Outcome)
    requires env.maxInvocations > 0
  {
    Attempt(env, Before(env, s, name, program, input, j), name, program, input)
  }

  /** Attempt i failed, the context was still open, and the wait after it was not cut short. */
  ghost predicate GoesOn<W(!new)>(
    env: Env<W>, s: State<W>, name: Name, program: (Any, W) -> Body<W>, input: Any, i: nat)
    requires env.maxInvocations > 0
  {
    var (s1, o) := Answer(env, s, name, program, input, i);
    o.Failure? && !env.cancelled(s1.w) && Backoff(env, s1.w, i).1
  }

  /** What the loop returns after attempt j, the last it makes. */
  ghost predicate EndsWith<W(!new)>(
    env: Env<W>, s: State<W>, name: Name, program: (Any, W) -> Body<W>, input: Any, j: nat, r: (State<W>, Outcome))
    requires env.maxInvocations > 0
  {
    var (s1, o) := Answer(env, s, name, program, input, j);
    if o.Success? || j == Retries(env) then r == (s1, o)
    else if env.cancelled(s1.w) then r == (s1, Failure(Cancelled))
    else !Backoff(env, s1.w, j).1 && r == (s1.(w := Backoff(env, s1.w, j).0), Failure(Cancelled))
  }

  /** The first attempt that is not followed by another, among the first R + 1. */
  ghost predicate LastAttempt<W(!new)>(
    env: Env<W>, s: State<W>, name: Name, program: (Any, W) -> Body<W>, input: Any, j: nat)
    requires env.maxInvocations > 0
  {
    j <= Retries(env) && forall i | 0 <= i < j :: GoesOn(env, s, name, program, input, i)
  }

  lemma {:induction false} AttemptsFrom<W(!new)>(
    env: Env<W>, s: State<W>, name: Name, program: (Any, W) -> Body<W>, input: Any, i: nat) returns (j: nat)
    requires env.maxInvocations > 0 && LastAttempt(env, s, name, program, input, i)
    ensures LastAttempt(env, s, name, program, input, j)
    ensures EndsWith(env, s, name, program, input, j,
                     Attempts(env, Before(env, s, name, program, input, i), name, program, input, i))
    decreases Retries(env) - i
  {
    hide Attempt, Backoff;
    var here := Before(env, s, name, program, input, i);
    var (s1, o) := Attempt(env, here, name, program, input);
    assert Answer(env, s, name, program, input, i) == (s1, o);
    if o.Success? || i == Retries(env) || env.cancelled(s1.w) || !Backoff(env, s1.w, i).1 {
      j := i;
    } else {
      assert Before(env, s, name, program, input, i + 1)
          == s1.(w := Backoff(env, s1.w, i).0, log := s1.log + [CapabilityRetried(name, i + 1)]);
      j := AttemptsFrom(env, s, name, program, input, i + 1);
    }
  }

  /**
   * The loop returns the first success among the first R + 1 attempts, or the last one's error, or Cancelled
   * after a failed attempt whose context check or wait ended it. Every earlier attempt failed.
   */
  lemma FirstSuccess<W(!new)>(
    env: Env<W>, s: State<W>, name: Name, program: (Any, W) -> Body<W>, input: Any) returns (j: nat)
    requires env.maxInvocations > 0
    ensures LastAttempt(env, s, name, program, input, j)
    ensures EndsWith(env, s, name, program, input, j, Attempts(env, s, name, program, input, 0))
  {
    j := AttemptsFrom(env, s, name, program, input, 0);
  }

  /** No cancellation reaches the loop. */
  ghost predicate Uninterrupted<W(!new)>(env: Env<W>) {
    (forall w :: !env.cancelled(w)) && (forall w, d {:trigger env.wait(w, d)} :: env.wait(w, d).1)
  }

  /** Then only the first success or the last error is left. */
  lemma UninterruptedEnd<W(!new)>(
    env: Env<W>, s: State<W>, name: Name, program: (Any, W) -> Body<W>, input: Any, j: nat, r: (State<W>, Outcome))
    requires env.maxInvocations > 0 && Uninterrupted(env) && EndsWith(env, s, name, program, input, j, r)
    ensures r == Answer(env, s, name, program, input, j) && (r.1.Success? || j == Retries(env))
  {
  }

  // ---- the events of an invocation ----

  lemma {:induction false} InvokeLogGrows<W(!new)>(env: Env<W>, s: State<W>, name: Name, input: Any)
    requires env.maxInvocations > 0
    ensures s.log <= Invoke(env, s, name, input).0.log
    decreases SlotsLeft(env, s), 0
  {
    hide Attempts;
    var s1 := s.(count := s.count + 1);
    if s1.count <= env.maxInvocations && !env.expired(s1.w) && env.bind(name).Bound? {
      AttemptsLogGrows(env, s1.(frames := s1.frames + 1), name, env.bind(name).program, input, 0);
    }
  }

  lemma {:induction false} AttemptLogGrows<W(!new)>(
    env: Env<W>, s: State<W>, name: Name, program: (Any, W) -> Body<W>, input: Any)
    requires env.maxInvocations > 0
    ensures s.log <= Attempt(env, s, name, program, input).0.log
    decreases SlotsLeft(env, s), 2
  {
    hide RunBody;
    BodyLogGrows(env, s.(calls := s.calls + 1), program(input, s.w));
  }

  lemma {:induction false} AttemptsLogGrows<W(!new)>(
    env: Env<W>, s: State<W>, name: Name, program: (Any, W) -> Body<W>, input: Any, attempt: nat)
    requires env.maxInvocations > 0
    ensures s.log <= Attempts(env, s, name, program, input, attempt).0.log
    decreases SlotsLeft(env, s), 3, if attempt < env.maxRetries then env.maxRetries - attempt else 0
  {
    hide Attempt, Backoff;
    AttemptLogGrows(env, s, name, program, input);
    var (s1, o) := Attempt(env, s, name, program, input);
    if o.Failure? && env.idempotent && attempt < env.maxRetries && !env.cancelled(s1.w) {
      var (w, fired) := Backoff(env, s1.w, attempt);
      if fired {
        var s2 := s1.(w := w, log := s1.log + [CapabilityRetried(name, attempt + 1)]);
        AttemptsLogGrows(env, s2, name, program, input, attempt + 1);
      }
    }
  }

  lemma {:induction false} BodyLogGrows<W(!new)>(env: Env<W>, s: State<W>, b: Body<W>)
    requires env.maxInvocations > 0
    ensures s.log <= RunBody(env, s, b).0.log
    decreases SlotsLeft(env, s), 1, b
  {
    hide Invoke;
    match b {
      case Return(_, _) =>
      case Call(name, input, at, resume) =>
        InvokeLogGrows(env, s.(w := at), name, input);
        var (s1, o) := Invoke(env, s.(w := at), name, input);
        if (o, s1.w) in resume {
          BodyLogGrows(env, s1, resume[(o, s1.w)]);
        }
    }
  }

  /** What the body of an attempt starting in s publishes, by invoking others. */
  ghost function BodyEvents<W(!new)>(env: Env<W>, s: State<W>, program: (Any, W) -> Body<W>, input: Any): seq<Event>
    requires env.maxInvocations > 0
  {
    BodyLogGrows(env, s.(calls := s.calls + 1), program(input, s.w));
    RunBody(env, s.(calls := s.calls + 1), program(input, s.w)).0.log[|s.log|..]
  }

  /** The bodies' events of attempts 0 to j. */
  ghost function Nested<W(!new)>(
    env: Env<W>, s: State<W>, name: Name, program: (Any, W) -> Body<W>, input: Any, j: nat): (r: seq<seq<Event>>)
    requires env.maxInvocations > 0
    ensures |r| == j + 1
  {
    (if j == 0 then [] else Nested(env, s, name, program, input, j - 1))
    + [BodyEvents(env, Before(env, s, name, program, input, j), program, input)]
  }

  /**
   * One invocation's events: each attempt is its body's own events and then CapabilityInvoked, retries stand
   * between attempts and are numbered from 1, and all attempts but the last failed.
   */
  function Woven(name: Name, nested: seq<seq<Event>>, ok: bool): seq<Event>
    requires nested != []
  {
    var j := |nested| - 1;
    (if j == 0 then [] else Woven(name, nested[..j], false) + [CapabilityRetried(name, j)])
    + nested[j] + [CapabilityInvoked(name, ok)]
  }

  lemma AttemptLog<W(!new)>(env: Env<W>, s: State<W>, name: Name, program: (Any, W) -> Body<W>, input: Any)
    requires env.maxInvocations > 0
    ensures var (s', o) := Attempt(env, s, name, program, input);
            s'.log == s.log + BodyEvents(env, s, program, input) + [CapabilityInvoked(name, o.Success?)]
  {
    hide RunBody;
    var s0 := s.(calls := s.calls + 1);
    BodyLogGrows(env, s0, program(input, s.w));
    var log := RunBody(env, s0, program(input, s.w)).0.log;
    assert log == s.log + log[|s.log|..];
  }

  /** Attempt j's body and where its events stand. */
  lemma NestedLast<W(!new)>(
    env: Env<W>, s: State<W>, name: Name, program: (Any, W) -> Body<W>, input: Any, j: nat)
    requires env.maxInvocations > 0
    ensures var nested := Nested(env, s, name, program, input, j);
            && nested[j] == BodyEvents(env, Before(env, s, name, program, input, j), program, input)
            && (j > 0 ==> nested[..j] == Nested(env, s, name, program, input, j - 1))
  {
    hide Before, BodyEvents;
  }

  lemma BeforeLog<W(!new)>(
    env: Env<W>, s: State<W>, name: Name, program: (Any, W) -> Body<W>, input: Any, j: nat)
    requires env.maxInvocations > 0
    ensures Before(env, s, name, program, input, j).log ==
              if j == 0 then s.log
              else Answer(env, s, name, program, input, j - 1).0.log + [CapabilityRetried(name, j)]
  {
    hide Attempt;
  }

  lemma WovenStep(name: Name, nested: seq<seq<Event>>, ok: bool)
    requires nested != []
    ensures var j := |nested| - 1;
            Woven(name, nested, ok) ==
              (if j == 0 then [] else Woven(name, nested[..j], false) + [CapabilityRetried(name, j)])
              + nested[j] + [CapabilityInvoked(name, ok)]
  {
  }

  lemma {:induction false} AnswerLog<W(!new)>(
    env: Env<W>, s: State<W>, name: Name, program: (Any, W) -> Body<W>, input: Any, j: nat)
    requires env.maxInvocations > 0
    requires forall i | 0 <= i < j :: Answer(env, s, name, program, input, i).1.Failure?
    ensures var (s', o) := Answer(env, s, name, program, input, j);
            s'.log == s.log + Woven(name, Nested(env, s, name, program, input, j), o.Success?)
  {
    hide Attempt, BodyEvents, Before, Nested, Woven;
    var here := Before(env, s, name, program, input, j);
    var ok := Answer(env, s, name, program, input, j).1.Success?;
    var nested := Nested(env, s, name, program, input, j);
    AttemptLog(env, here, name, program, input);
    BeforeLog(env, s, name, program, input, j);
    NestedLast(env, s, name, program, input, j);
    WovenStep(name, nested, ok);
    if j > 0 {
      AnswerLog(env, s, name, program, input, j - 1);
      Reassociate(s.log, Woven(name, nested[..j], false), [CapabilityRetried(name, j)], nested[j],
                  [CapabilityInvoked(name, ok)]);
    } else {
      Reassociate(s.log, [], [], nested[j], [CapabilityInvoked(name, ok)]);
    }
  }

  lemma Reassociate(a: seq<Event>, b: seq<Event>, c: seq<Event>, d: seq<Event>, e: seq<Event>)
    ensures a + b + c + d + e == a + (b + c + d + e)
  {
  }

  /**
   * The events of any invocation that reaches the loop, however it is left and whatever its bodies invoke in
   * turn: the weave of the events of its attempts' bodies, one attempt for each.
   */
  lemma InvocationLog<W(!new)>(
    env: Env<W>, s: State<W>, name: Name, program: (Any, W) -> Body<W>, input: Any) returns (j: nat)
    requires env.maxInvocations > 0
    ensures LastAttempt(env, s, name, program, input, j)
    ensures var r := Attempts(env, s, name, program, input, 0);
            && EndsWith(env, s, name, program, input, j, r)
            && r.0.log == s.log + Woven(name, Nested(env, s, name, program, input, j), r.1.Success?)
  {
    hide Attempts, Nested, Woven, Answer, Backoff;
    j := FirstSuccess(env, s, name, program, input);
    forall i | 0 <= i < j ensures Answer(env, s, name, program, input, i).1.Failure? {
      assert GoesOn(env, s, name, program, input, i);
    }
    AnswerLog(env, s, name, program, input, j);
  }

  function TotalInvoked(nested: seq<seq<Event>>): nat {
    if nested == [] then 0 else TotalInvoked(nested[..|nested| - 1]) + Invoked(nested[|nested| - 1])
  }

  function TotalRetried(nested: seq<seq<Event>>): nat {
    if nested == [] then 0 else TotalRetried(nested[..|nested| - 1]) + Retried(nested[|nested| - 1])
  }

  lemma {:induction false} CountConcat(a: seq<Event>, b: seq<Event>)
    ensures Invoked(a + b) == Invoked(a) + Invoked(b) && Retried(a + b) == Retried(a) + Retried(b)
  {
    if a == [] {
      assert a + b == b;
    } else {
      assert (a + b)[0] == a[0] && (a + b)[1..] == a[1..] + b;
      CountConcat(a[1..], b);
    }
  }

  lemma CountOne(e: Event)
    ensures Invoked([e]) == (if e.CapabilityInvoked? then 1 else 0)
    ensures Retried([e]) == (if e.CapabilityRetried? then 1 else 0)
  {
    assert [e][1..] == [];
  }

  /** Beside what its bodies publish, an invocation publishes one more invoked than retried event. */
  lemma {:induction false} WovenCounts(name: Name, nested: seq<seq<Event>>, ok: bool)
    requires nested != []
    ensures Invoked(Woven(name, nested, ok)) == TotalInvoked(nested) + |nested|
    ensures Retried(Woven(name, nested, ok)) == TotalRetried(nested) + |nested| - 1
  {
    hide Invoked, Retried;
    var j := |nested| - 1;
    var head := if j == 0 then [] else Woven(name, nested[..j], false) + [CapabilityRetried(name, j)];
    if j == 0 {
      NothingCounted();
      assert nested[..0] == [];
    } else {
      WovenCounts(name, nested[..j], false);
      CountConcat(Woven(name, nested[..j], false), [CapabilityRetried(name, j)]);
      CountOne(CapabilityRetried(name, j));
    }
    CountConcat(head, nested[j]);
    CountConcat(head + nested[j], [CapabilityInvoked(name, ok)]);
    CountOne(CapabilityInvoked(name, ok));
  }

  lemma NothingCounted()
    ensures Invoked([]) == 0 && Retried([]) == 0
  {
  }

  /** A capability that calls no other. */
  ghost predicate Leaf<W(!new)>(program: (Any, W) -> Body<W>) {
    forall input, w {:trigger program(input, w)} :: program(input, w).Return?
  }

  /** j failed attempts, each followed by its numbered retry, and a last attempt. */
  function FrameLog(name: Name, j: nat, ok: bool): seq<Event> {
    if j == 0 then [CapabilityInvoked(name, ok)]
    else FrameLog(name, j - 1, false) + [CapabilityRetried(name, j), CapabilityInvoked(name, ok)]
  }

  lemma {:induction false} LeafWoven<W(!new)>(
    env: Env<W>, s: State<W>, name: Name, program: (Any, W) -> Body<W>, input: Any, j: nat, ok: bool)
    requires env.maxInvocations > 0 && Leaf(program)
    ensures Woven(name, Nested(env, s, name, program, input, j), ok) == FrameLog(name, j, ok)
  {
    hide Before, BodyEvents, Nested, Woven;
    var here := Before(env, s, name, program, input, j);
    LeafSilent(env, here, program, input);
    NestedLast(env, s, name, program, input, j);
    WovenStep(name, Nested(env, s, name, program, input, j), ok);
    if j > 0 {
      LeafWoven(env, s, name, program, input, j - 1, false);
    }
  }

  lemma LeafSilent<W(!new)>(env: Env<W>, s: State<W>, program: (Any, W) -> Body<W>, input: Any)
    requires env.maxInvocations > 0 && Leaf(program)
    ensures BodyEvents(env, s, program, input) == []
  {
    var b := program(input, s.w);
    assert RunBody(env, s.(calls := s.calls + 1), b).0.log == s.log;
  }

  /** A leaf's events: attempts and retries alternate, the retries numbered 1 to j, cancelled or not. */
  lemma LeafLog<W(!new)>(
    env: Env<W>, s: State<W>, name: Name, program: (Any, W) -> Body<W>, input: Any) returns (j: nat)
    requires env.maxInvocations > 0 && Leaf(program)
    ensures LastAttempt(env, s, name, program, input, j)
    ensures var (s', o) := Attempts(env, s, name, program, input, 0);
            s'.log == s.log + FrameLog(name, j, o.Success?) && s'.calls == s.calls + j + 1
  {
    hide Attempts, Nested, Woven, FrameLog, Invoked, Retried;
    j := InvocationLog(env, s, name, program, input);
    var ok := Attempts(env, s, name, program, input, 0).1.Success?;
    LeafWoven(env, s, name, program, input, j, ok);
    AttemptsWithin(env, s, name, program, input, 0);
    CountConcat(s.log, FrameLog(name, j, ok));
    FrameLogCounts(name, j, ok);
  }

  lemma {:induction false} FrameLogCounts(name: Name, j: nat, ok: bool)
    ensures Invoked(FrameLog(name, j, ok)) == j + 1
  {
    CountOne(CapabilityInvoked(name, ok));
    if j > 0 {
      FrameLogCounts(name, j - 1, false);
      CountOne(CapabilityRetried(name, j));
      CountConcat([CapabilityRetried(name, j)], [CapabilityInvoked(name, ok)]);
      CountConcat(FrameLog(name, j - 1, false), [CapabilityRetried(name, j), CapabilityInvoked(name, ok)]);
    }
  }

  // ---- backoff ----

  /**
   * What follows a failed attempt that may be retried, d being the int64 that retryBackoff * 2^attempt wraps to:
   * the next attempt starts where a wait of d leaves the world, or at once when d is not positive.
   */
  lemma NextAttempt<W(!new)>(
    env: Env<W>, s: State<W>, name: Name, program: (Any, W) -> Body<W>, input: Any, attempt: nat, d: int)
    requires env.maxInvocations > 0 && env.idempotent && attempt < env.maxRetries
    requires Attempt(env, s, name, program, input).1.Failure?
    requires !env.cancelled(Attempt(env, s, name, program, input).0.w)
    requires -0x8000_0000_0000_0000 <= d < 0x8000_0000_0000_0000
    requires (env.retryBackoff * Pow2(attempt) - d) % 0x1_0000_0000_0000_0000 == 0
    ensures var s1 := Attempt(env, s, name, program, input).0;
            Attempts(env, s, name, program, input, attempt) ==
              if d > 0 && !env.wait(s1.w, d).1 then (s1.(w := env.wait(s1.w, d).0), Failure(Cancelled))
              else
                Attempts(env, s1.(w := if d > 0 then env.wait(s1.w, d).0 else s1.w,
                                  log := s1.log + [CapabilityRetried(name, attempt + 1)]),
                         name, program, input, attempt + 1)
  {
    hide Attempt, Wrap64;
    OneInt64(env.retryBackoff * Pow2(attempt), d);
  }

  lemma OneInt64(n: int, d: int)
    requires -0x8000_0000_0000_0000 <= d < 0x8000_0000_0000_0000 && (n - d) % 0x1_0000_0000_0000_0000 == 0
    ensures Wrap64(n) == d
  {
  }

  /** A clock that waiting moves by what was waited, in a world where the capability itself takes no time. */
  ghost predicate Clocked<W(!new)>(env: Env<W>, program: (Any, W) -> Body<W>, clock: W -> int) {
    && (forall w, d {:trigger env.wait(w, d)} :: d > 0 && env.wait(w, d).1 ==> clock(env.wait(w, d).0) == clock(w) + d)
    && (forall input, w {:trigger program(input, w)} ::
          program(input, w).Return? && clock(program(input, w).after) == clock(w))
  }

  lemma AttemptOnTheClock<W(!new)>(
    env: Env<W>, s: State<W>, name: Name, program: (Any, W) -> Body<W>, input: Any, clock: W -> int)
    requires env.maxInvocations > 0 && Clocked(env, program, clock)
    ensures var s1 := Attempt(env, s, name, program, input).0; s1.calls == s.calls + 1 && clock(s1.w) == clock(s.w)
  {
    assert program(input, s.w).Return?;
  }

  /**
   * An invocation of a capability that calls no other: when its waits are not cut short and the largest delay fits
   * an int64, one that made k attempts has waited retryBackoff * (2^(k - 1) - 1).
   */
  lemma WaitedInAll<W(!new)>(
    env: Env<W>, s: State<W>, name: Name, program: (Any, W) -> Body<W>, input: Any, clock: W -> int)
    requires env.maxInvocations > 0 && env.retryBackoff >= 0 && Clocked(env, program, clock)
    requires Retries(env) > 0 ==> env.retryBackoff * Pow2(Retries(env) - 1) < 0x8000_0000_0000_0000
    ensures var (s', o) := Attempts(env, s, name, program, input, 0);
            && s'.calls > s.calls
            && (o != Failure(Cancelled) ==>
                  clock(s'.w) == clock(s.w) + env.retryBackoff * (Pow2(s'.calls - s.calls - 1) - 1))
  {
    hide Attempts;
    WaitedFrom(env, s, name, program, input, clock, 0);
  }

  lemma {:induction false} WaitedFrom<W(!new)>(
    env: Env<W>, s: State<W>, name: Name, program: (Any, W) -> Body<W>, input: Any, clock: W -> int, attempt: nat)
    requires env.maxInvocations > 0 && env.retryBackoff >= 0 && Clocked(env, program, clock)
    requires attempt <= Retries(env)
    requires Retries(env) > 0 ==> env.retryBackoff * Pow2(Retries(env) - 1) < 0x8000_0000_0000_0000
    ensures var (s', o) := Attempts(env, s, name, program, input, attempt);
            && s'.calls > s.calls
            && (o != Failure(Cancelled) ==>
                  clock(s'.w) == clock(s.w)
                                 + env.retryBackoff * (Pow2(attempt + s'.calls - s.calls - 1) - Pow2(attempt)))
    decreases Retries(env) - attempt
  {
    hide Attempt, Attempts, Pow2, Clocked;
    var b := env.retryBackoff;
    var (s1, o) := Attempt(env, s, name, program, input);
    AttemptOnTheClock(env, s, name, program, input, clock);
    if o.Failure? && attempt < Retries(env) && !env.cancelled(s1.w) {
      var d := b * Pow2(attempt);
      Pow2Monotone(attempt, Retries(env) - 1);
      Scaled(b, Pow2(attempt), Pow2(Retries(env) - 1));
      NextAttempt(env, s, name, program, input, attempt, d);
      if d <= 0 || env.wait(s1.w, d).1 {
        var s2 := s1.(w := if d > 0 then env.wait(s1.w, d).0 else s1.w,
                      log := s1.log + [CapabilityRetried(name, attempt + 1)]);
        WaitOnTheClock(env, program, clock, s1.w, d);
        WaitedFrom(env, s2, name, program, input, clock, attempt + 1);
        var k := Attempts(env, s2, name, program, input, attempt + 1).0.calls - s2.calls;
        Pow2Step(attempt);
        TwoDelays(b, Pow2(attempt), Pow2(attempt + k));
      }
    } else {
      NoNextAttempt(env, s, name, program, input, attempt);
    }
  }

  lemma NoNextAttempt<W(!new)>(
    env: Env<W>, s: State<W>, name: Name, program: (Any, W) -> Body<W>, input: Any, attempt: nat)
    requires env.maxInvocations > 0
    requires var (s1, o) := Attempt(env, s, name, program, input);
             o.Success? || attempt >= Retries(env) || env.cancelled(s1.w)
    ensures var (s1, o) := Attempt(env, s, name, program, input);
            var r := Attempts(env, s, name, program, input, attempt);
            r.0 == s1 && (r.1 == o || r.1 == Failure(Cancelled))
  {
    hide Attempt;
  }

  lemma WaitOnTheClock<W(!new)>(env: Env<W>, program: (Any, W) -> Body<W>, clock: W -> int, w: W, d: int)
    requires Clocked(env, program, clock) && (d > 0 ==> env.wait(w, d).1)
    ensures d > 0 ==> clock(env.wait(w, d).0) == clock(w) + d
  {
  }

  lemma Pow2Step(n: nat)
    ensures Pow2(n + 1) == 2 * Pow2(n)
  {
  }

  lemma TwoDelays(b: int, p: int, q: int)
    ensures b * p + b * (q - 2 * p) == b * (q - p)
  {
  }

  /** The delays scheduled before attempt j. */
  function TotalDelay(backoff: int, j: nat): int {
    if j == 0 then 0 else TotalDelay(backoff, j - 1) + Delay(backoff, j - 1)
  }

  lemma {:induction false} Pow2Monotone(a: nat, b: nat)
    requires a <= b
    ensures Pow2(a) <= Pow2(b)
  {
    if a < b {
      Pow2Monotone(a, b - 1);
    }
  }

  lemma Scaled(b: nat, p: nat, q: nat)
    requires p <= q
    ensures 0 <= b * p <= b * q
  {
  }

  lemma OneMoreDelay(b: nat, p: nat)
    ensures b * (p - 1) + b * p == b * (2 * p - 1)
  {
  }

  /** While the largest delay fits an int64, the delays before attempt j add up to b * (2^j - 1). */
  lemma {:induction false} BackoffTotal(backoff: nat, retries: nat, j: nat)
    requires retries > 0 && backoff * Pow2(retries - 1) < 0x8000_0000_0000_0000 && j <= retries
    ensures TotalDelay(backoff, j) == backoff * (Pow2(j) - 1)
  {
    if j > 0 {
      BackoffTotal(backoff, retries, j - 1);
      Pow2Monotone(j - 1, retries - 1);
      hide Delay;
      var p := Pow2(j - 1);
      Scaled(backoff, p, Pow2(retries - 1));
      OneMoreDelay(backoff, p);
    }
  }
}
