/**
 * The capability invoker: one slot counter shared by every invocation of a run, a retry loop for
 * idempotent actions, and capabilities that may call back into the same invoker.
 */
module Invoker {
  import opened Evidence
  import opened Numerals

  type Name = string

  datatype BudgetKind = Invocations | Duration

  datatype Error =
    | BudgetExceeded(kind: BudgetKind)
    | NotAvailable(name: Name)
    | NoExecutor(name: Name)
    | Cancelled
    | Reported(code: int)
    | PipelineBroken(step: nat)

  datatype Outcome = Success(value: Any) | Failure(error: Error)

  /**
   * What one attempt of a capability does: finish, or act on the world, invoke another capability and go
   * on from its answer. A tree of finite depth: each attempt makes finitely many calls, however long its
   * branches are. An answer outside `resume` is passed on.
   */
  datatype Body<!W(==)> =
    | Return(outcome: Outcome, after: W)
    | Call(name: Name, input: Any, at: W, resume: imap<(Outcome, W), Body<W>>)

  datatype Binding<!W(==)> = Unresolved | Unbound | Bound(program: (Any, W) -> Body<W>)

  /** The budget, and what the clock, the context and the registries answer in a given world. */
  datatype Env<!W(==)> = Env(
    maxInvocations: int,
    maxRetries: int,
    retryBackoff: int,
    idempotent: bool,
    bind: Name -> Binding<W>,
    expired: W -> bool,
    cancelled: W -> bool,
    wait: (W, int) -> (W, bool))

  datatype Event =
    | CapabilityInvoked(capability: Name, success: bool)
    | CapabilityRetried(capability: Name, attempt: nat)
    | OverBudget(kind: BudgetKind)

  /** `frames` counts invocations that reached the retry loop, `calls` attempts handed to an executor. */
  datatype State<W> = State(count: nat, frames: nat, calls: nat, log: seq<Event>, w: W)

  // ---- the retry bound and the backoff ----

  function Retries<W(==)>(env: Env<W>): nat {
    if env.idempotent && env.maxRetries > 0 then env.maxRetries else 0
  }

  function Pow2(n: nat): (p: nat)
    ensures p > 0
  {
    if n == 0 then 1 else 2 * Pow2(n - 1)
  }

  /** retryBackoff << attempt on an int64. */
  function Delay(backoff: int, attempt: nat): (d: int)
    ensures 0 <= backoff * Pow2(attempt) < 0x8000_0000_0000_0000 ==> d == backoff * Pow2(attempt)
  {
    Wrap64(backoff * Pow2(attempt))
  }

  // ---- the specification ----

  function SlotsLeft<W(==)>(env: Env<W>, s: State<W>): nat {
    if s.count < env.maxInvocations then env.maxInvocations - s.count else 0
  }

  /** Invoke: a slot, the lookups, then the attempts. */
  ghost function Invoke<W(!new)>(env: Env<W>, s: State<W>, name: Name, input: Any): (r: (State<W>, Outcome))
    requires env.maxInvocations > 0
    ensures r.0.count > s.count
    decreases SlotsLeft(env, s), 0
  {
    var s1 := s.(count := s.count + 1);
    if s1.count > env.maxInvocations then
      (s1.(log := s1.log + [OverBudget(Invocations)]), Failure(BudgetExceeded(Invocations)))
    else if env.expired(s1.w) then
      (s1.(log := s1.log + [OverBudget(Duration)]), Failure(BudgetExceeded(Duration)))
    else
      match env.bind(name)
      case Unresolved => (s1, Failure(NotAvailable(name)))
      case Unbound => (s1, Failure(Error.NoExecutor(name)))
      case Bound(program) => Attempts(env, s1.(frames := s1.frames + 1), name, program, input, 0)
  }

  /** What one attempt leaves: its own call counted, its body run, its event published. */
  ghost function Attempt<W(!new)>(env: Env<W>, s: State<W>, name: Name, program: (Any, W) -> Body<W>, input: Any)
    : (r: (State<W>, Outcome))
    requires env.maxInvocations > 0
    ensures r.0.count >= s.count
    decreases SlotsLeft(env, s), 2
  {
    var (s1, o) := RunBody(env, s.(calls := s.calls + 1), program(input, s.w));
    (s1.(log := s1.log + [CapabilityInvoked(name, o.Success?)]), o)
  }

  /** The loop from a given attempt number on. */
  ghost function Attempts<W(!new)>(
    env: Env<W>, s: State<W>, name: Name, program: (Any, W) -> Body<W>, input: Any, attempt: nat)
    : (r: (State<W>, Outcome))
    requires env.maxInvocations > 0
    ensures r.0.count >= s.count
    decreases SlotsLeft(env, s), 3, if attempt < env.maxRetries then env.maxRetries - attempt else 0
  {
    var (s1, o) := Attempt(env, s, name, program, input);
    if o.Success? || !env.idempotent || attempt >= env.maxRetries then (s1, o)
    else if env.cancelled(s1.w) then (s1, Failure(Cancelled))
    else
      var (w, fired) := Backoff(env, s1.w, attempt);
      if !fired then (s1.(w := w), Failure(Cancelled))
      else
        Attempts(env, s1.(w := w, log := s1.log + [CapabilityRetried(name, attempt + 1)]),
                 name, program, input, attempt + 1)
  }

  function Backoff<W(==)>(env: Env<W>, w: W, attempt: nat): (W, bool) {
    var delay := Delay(env.retryBackoff, attempt);
    if delay > 0 then env.wait(w, delay) else (w, true)
  }

  ghost function RunBody<W(!new)>(env: Env<W>, s: State<W>, b: Body<W>): (r: (State<W>, Outcome))
    requires env.maxInvocations > 0
    ensures r.0.count >= s.count
    decreases SlotsLeft(env, s), 1, b
  {
    match b
    case Return(o, w) => (s.(w := w), o)
    case Call(name, input, at, resume) =>
      var (s1, o) := Invoke(env, s.(w := at), name, input);
      if (o, s1.w) in resume then RunBody(env, s1, resume[(o, s1.w)]) else (s1, o)
  }
}
