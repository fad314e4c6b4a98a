/** The invoker as the program runs it: a counter and a publisher that its loop and its callees update. */
module InvokerProgram {
  import opened Evidence
  import opened Invoker

  /** budgetEnforcer with a positive invocation limit. */
  class BudgetEnforcer {
    const maxInvocations: nat
    var invocations: nat

    constructor (maxInvocations: nat)
      ensures this.maxInvocations == maxInvocations && invocations == 0
    {
      this.maxInvocations, invocations := maxInvocations, 0;
    }

    /** checkInvocation: the counter moves even when the check fails. */
    method CheckInvocation(late: bool) returns (exceeded: seq<BudgetKind>)
      modifies this`invocations
      ensures maxInvocations > 0 ==> invocations == old(invocations) + 1
      ensures maxInvocations == 0 ==> invocations == old(invocations)
      ensures exceeded == if maxInvocations > 0 && old(invocations) >= maxInvocations then [Invocations]
                          else if late then [Duration] else []
    {
      if maxInvocations > 0 {
        invocations := invocations + 1;
        if invocations > maxInvocations {
          return [Invocations];
        }
      }
      if late {
        return [Duration];
      }
      return [];
    }
  }

  class BoundInvoker<W(==,!new)> {
    const env: Env<W>
    const budget: BudgetEnforcer
    var published: seq<Event>
    var world: W
    ghost var frames: nat
    ghost var calls: nat

    ghost predicate Valid()
      reads this
    {
      budget.maxInvocations == env.maxInvocations && env.maxInvocations > 0
    }

    ghost function View(): State<W>
      reads this, budget
    {
      State(budget.invocations, frames, calls, published, world)
    }

    constructor (env: Env<W>, world: W)
      requires env.maxInvocations > 0
      ensures Valid() && fresh(budget)
      ensures View() == State(0, 0, 0, [], world) && this.env == env
    {
      this.env, this.world := env, world;
      budget := new BudgetEnforcer(env.maxInvocations);
      published, frames, calls := [], 0, 0;
    }

    method Publish(e: Event)
      modifies this`published
      ensures published == old(published) + [e]
    {
      published := published + [e];
    }

    method Invoke(name: Name, input: Any) returns (o: Outcome)
      requires Valid()
      modifies this, budget
      ensures Valid()
      ensures (View(), o) == Invoker.Invoke(env, old(View()), name, input)
      decreases SlotsLeft(env, View()), 0
    {
      var exceeded := budget.CheckInvocation(env.expired(world));
      if exceeded != [] {
        Publish(OverBudget(exceeded[0]));
        return Failure(BudgetExceeded(exceeded[0]));
      }
      match env.bind(name)
      case Unresolved => return Failure(NotAvailable(name));
      case Unbound => return Failure(Error.NoExecutor(name));
      case Bound(program) =>
        frames := frames + 1;
        o := RetryLoop(name, program, input);
    }

    method RetryLoop(name: Name, program: (Any, W) -> Body<W>, input: Any) returns (o: Outcome)
      requires Valid()
      modifies this, budget
      ensures Valid()
      ensures (View(), o) == Attempts(env, old(View()), name, program, input, 0)
      decreases SlotsLeft(env, View()), 3
    {
      ghost var entered := View();
      var attempt := 0;
      while true
        invariant Valid()
        invariant budget.invocations >= entered.count
        invariant attempt == 0 || attempt <= env.maxRetries
        invariant Attempts(env, View(), name, program, input, attempt)
               == Attempts(env, entered, name, program, input, 0)
        decreases if attempt < env.maxRetries then env.maxRetries - attempt else 0
      {
        o := InvokeOnce(name, program, input);
        if o.Success? {
          return;
        }
        if !env.idempotent || attempt >= env.maxRetries {
          return;
        }
        if env.cancelled(world) {
          return Failure(Cancelled);
        }
        var delay := Delay(env.retryBackoff, attempt);
        if delay > 0 {
          var (w, fired) := env.wait(world, delay);
          world := w;
          if !fired {
            return Failure(Cancelled);
          }
        }
        attempt := attempt + 1;
        Publish(CapabilityRetried(name, attempt));
      }
    }

    /** One turn of the loop up to its event. */
    method InvokeOnce(name: Name, program: (Any, W) -> Body<W>, input: Any) returns (o: Outcome)
      requires Valid()
      modifies this, budget
      ensures Valid() && budget.invocations >= old(budget.invocations)
      ensures (View(), o) == Attempt(env, old(View()), name, program, input)
      decreases SlotsLeft(env, View()), 2
    {
      calls := calls + 1;
      o := RunExecutor(program(input, world));
      Publish(CapabilityInvoked(name, o.Success?));
    }

    /** invokeOnce: a composable capability is handed this same invoker. */
    method RunExecutor(b: Body<W>) returns (o: Outcome)
      requires Valid()
      modifies this, budget
      ensures Valid()
      ensures (View(), o) == RunBody(env, old(View()), b)
      decreases SlotsLeft(env, View()), 1, b
    {
      match b
      case Return(outcome, after) =>
        world := after;
        return outcome;
      case Call(name, input, at, resume) =>
        world := at;
        o := Invoke(name, input);
        if (o, world) in resume {
          o := RunExecutor(resume[(o, world)]);
        }
    }
  }
}
