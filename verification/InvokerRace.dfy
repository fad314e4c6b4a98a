/**
 * The same invoker shared by goroutines: invocations overlap in any way, only the counter is atomic. Nothing
 * is assumed about who invokes what, so nested and cyclic invocations are covered too.
 */
module InvokerRace {

  /** One invocation past the slot check: attempts begun, whether one is under way, whether it returned. */
  datatype Frame = Frame(attempts: nat, busy: bool, returned: bool)

  datatype Pool = Pool(maxInvocations: nat, retries: nat, count: nat, frames: seq<Frame>, calls: nat)

  datatype Move =
    | Enter                           // checkInvocation by anyone
    | Begin(frame: nat)               // an executor is called, for the first time or again
    | Finish(frame: nat, ok: bool)    // it returns
    | GiveUp(frame: nat)              // cancellation, a failed lookup

  function Take(p: Pool, m: Move): Pool {
    match m
    case Enter =>
      var p1 := p.(count := p.count + 1);
      if p1.count > p.maxInvocations then p1 else p1.(frames := p.frames + [Frame(0, false, false)])
    case Begin(i) =>
      if i < |p.frames| && !p.frames[i].busy && !p.frames[i].returned then
        p.(calls := p.calls + 1, frames := p.frames[i := Frame(p.frames[i].attempts + 1, true, false)])
      else p
    case Finish(i, ok) =>
      if i < |p.frames| && p.frames[i].busy then
        // the loop retries while its attempt number, one less than the attempts begun, is below the limit
        p.(frames := p.frames[i := p.frames[i].(busy := false, returned := ok || p.frames[i].attempts > p.retries)])
      else p
    case GiveUp(i) =>
      if i < |p.frames| && !p.frames[i].busy then p.(frames := p.frames[i := p.frames[i].(returned := true)]) else p
  }

  function Play(p: Pool, ms: seq<Move>): Pool
    decreases |ms|
  {
    if ms == [] then p else Play(Take(p, ms[0]), ms[1..])
  }

  function TotalAttempts(fs: seq<Frame>): nat {
    if fs == [] then 0 else TotalAttempts(fs[..|fs| - 1]) + fs[|fs| - 1].attempts
  }

  lemma {:induction false} TotalOfUpdate(fs: seq<Frame>, i: nat, f: Frame)
    requires i < |fs|
    ensures TotalAttempts(fs[i := f]) + fs[i].attempts == TotalAttempts(fs) + f.attempts
  {
    var n := |fs| - 1;
    if i == n {
      assert fs[i := f][..n] == fs[..n];
    } else {
      assert fs[i := f][..n] == fs[..n][i := f];
      TotalOfUpdate(fs[..n], i, f);
    }
  }

  lemma {:induction false} TotalAtMost(fs: seq<Frame>, k: nat)
    requires forall i | 0 <= i < |fs| :: fs[i].attempts <= k
    ensures TotalAttempts(fs) <= |fs| * k
  {
    if fs != [] {
      TotalAtMost(fs[..|fs| - 1], k);
      assert (|fs| - 1) * k + k == |fs| * k;
    }
  }

  predicate Inv(p: Pool) {
    && p.calls == TotalAttempts(p.frames)
    && |p.frames| <= p.count && |p.frames| <= p.maxInvocations
    && (p.count < p.maxInvocations ==> |p.frames| == p.count)
    && forall i | 0 <= i < |p.frames| ::
         p.frames[i].attempts <= p.retries + if p.frames[i].busy || p.frames[i].returned then 1 else 0
  }

  lemma TakeKeeps(p: Pool, m: Move)
    requires Inv(p)
    ensures Inv(Take(p, m))
    ensures Take(p, m).maxInvocations == p.maxInvocations && Take(p, m).retries == p.retries
  {
    var p' := Take(p, m);
    match m {
      case Enter =>
        if p.count < p.maxInvocations {
          assert p'.frames[..|p.frames|] == p.frames;
        }
      case Begin(i) =>
        if i < |p.frames| { TotalOfUpdate(p.frames, i, Frame(p.frames[i].attempts + 1, true, false)); }
      case Finish(i, ok) =>
        if i < |p.frames| { TotalOfUpdate(p.frames, i, p'.frames[i]); }
      case GiveUp(i) =>
        if i < |p.frames| { TotalOfUpdate(p.frames, i, p'.frames[i]); }
    }
  }

  lemma {:induction false} PlayKeeps(p: Pool, ms: seq<Move>)
    requires Inv(p)
    ensures Inv(Play(p, ms))
    ensures Play(p, ms).maxInvocations == p.maxInvocations && Play(p, ms).retries == p.retries
    decreases |ms|
  {
    if ms != [] {
      TakeKeeps(p, ms[0]);
      PlayKeeps(Take(p, ms[0]), ms[1..]);
    }
  }

  /** In every interleaving executors are called at most M * (1 + R) times. */
  lemma CallsBoundedUnderRaces(maxInvocations: nat, retries: nat, ms: seq<Move>)
    requires maxInvocations > 0
    ensures Play(Pool(maxInvocations, retries, 0, [], 0), ms).calls <= maxInvocations * (1 + retries)
  {
    var p := Pool(maxInvocations, retries, 0, [], 0);
    PlayKeeps(p, ms);
    var p' := Play(p, ms);
    TotalAtMost(p'.frames, 1 + retries);
    Scaled(|p'.frames|, maxInvocations, 1 + retries);
  }

  lemma Scaled(a: nat, b: nat, k: nat)
    requires a <= b
    ensures a * k <= b * k
  {
  }
}
