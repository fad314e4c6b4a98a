/**
 * What a session holds after a run, told from the operations: everything an accepted operation was given is kept
 * for good and announced, and nothing else gets in.
 */
module SessionLedger {
  import opened Evidence
  import opened SessionModel

  // ---- the graph of statuses ----

  /** The moves docs/CONCEPTS.md draws. */
  predicate Edge(a: Status, b: Status) {
    match a
    case Pending => b == Validated
    case Validated => b == Resolved
    case Resolved => b == AwaitingApproval || b == Running
    case AwaitingApproval => b == Running || b == Rejected
    case Running => b == Succeeded || b == Failed
    case _ => false
  }

  predicate Moves(op: Op) {
    !op.Abort? && !op.Emit? && !op.AppendEvidence? && !op.PullEvents?
  }

  function Target(op: Op): Status
    requires Moves(op)
  {
    match op
    case MarkValidated(_) => Validated
    case MarkResolved(_) => Resolved
    case MarkAwaitingApproval(_) => AwaitingApproval
    case Succeed(_, _) => Succeeded
    case Fail(_, _) => Failed
    case Reject(_, _, _) => Rejected
    case _ => Running
  }

  /** A move is accepted iff its edge is in the graph; a decision also needs a waiting session and a name. */
  lemma AcceptedIffEdge(h: Hasher, s: State, op: Op)
    requires Recognised(s.status)
    ensures var (s', ok) := Apply(h, s, op);
            && (Moves(op) ==>
                  && (ok <==> Edge(s.status, Target(op)) && (op.Approve? || op.Reject? ==>
                        s.status == AwaitingApproval && op.decision.principal != ""))
                  && s'.status == if ok then Target(op) else s.status)
            && (!Moves(op) ==> ok && s'.status == if op.Abort? && !IsTerminal(s.status) then Failed else s.status)
  {
  }

  // ---- positions in a run ----

  /** The state operation i meets. */
  function At(h: Hasher, s: State, ops: seq<Op>, i: nat): State
    requires i <= |ops|
  {
    Run(h, s, ops[..i])
  }

  predicate Accepted(h: Hasher, s: State, ops: seq<Op>, i: nat)
    requires i < |ops|
  {
    Apply(h, At(h, s, ops, i), ops[i]).1
  }

  lemma RunEmpty(h: Hasher, s: State)
    ensures Run(h, s, []) == s && AllRaised(h, s, []) == []
  {
  }

  lemma RunOne(h: Hasher, s: State, op: Op)
    ensures Run(h, s, [op]) == Apply(h, s, op).0
    ensures AllRaised(h, s, [op]) == Raised(h, s, op)
  {
    hide Apply, Raised;
    assert [op][1..] == [];
    RunEmpty(h, Apply(h, s, op).0);
    assert AllRaised(h, s, [op]) == Raised(h, s, op) + [];
  }

  lemma {:induction false} RaisedConcat(h: Hasher, s: State, a: seq<Op>, b: seq<Op>)
    ensures AllRaised(h, s, a + b) == AllRaised(h, s, a) + AllRaised(h, Run(h, s, a), b)
    decreases |a|
  {
    hide Apply, Raised;
    if a == [] {
      assert a + b == b;
    } else {
      assert (a + b)[0] == a[0] && (a + b)[1..] == a[1..] + b;
      RaisedConcat(h, Apply(h, s, a[0]).0, a[1..], b);
    }
  }

  /** A run, split around operation i. */
  lemma Around(h: Hasher, s: State, ops: seq<Op>, i: nat)
    requires i < |ops|
    ensures At(h, s, ops, i + 1) == Apply(h, At(h, s, ops, i), ops[i]).0
    ensures Run(h, s, ops) == Run(h, At(h, s, ops, i + 1), ops[i + 1..])
    ensures AllRaised(h, s, ops) ==
            AllRaised(h, s, ops[..i]) + Raised(h, At(h, s, ops, i), ops[i])
            + AllRaised(h, At(h, s, ops, i + 1), ops[i + 1..])
  {
    hide Run, AllRaised, Apply, Raised;
    var a, b := ops[..i + 1], ops[i + 1..];
    assert ops == a + b && a == ops[..i] + [ops[i]];
    RunConcat(h, s, ops[..i], [ops[i]]);
    RunConcat(h, s, a, b);
    RunOne(h, At(h, s, ops, i), ops[i]);
    RaisedConcat(h, s, ops[..i], [ops[i]]);
    RaisedConcat(h, s, a, b);
  }

  /** What no later operation changes, by how far the session has come. */
  lemma SettledStep(h: Hasher, s: State, op: Op)
    requires Recognised(s.status)
    ensures var s' := Apply(h, s, op).0;
            && Recognised(s'.status) && Rank(s'.status) <= Rank(s.status)
            && s'.id == s.id && s'.actionName == s.actionName && s'.input == s.input
            && s.chunks <= s'.chunks && s.evidence <= s'.evidence
            && (Rank(s.status) <= 4 ==> s'.startedAt == s.startedAt)
            && (Rank(s.status) <= 3 ==> s'.capabilities == s.capabilities)
            && (Rank(s.status) <= 2 ==> s'.requiresApproval == s.requiresApproval)
            && (Rank(s.status) <= 1 ==> s'.decision == s.decision)
            && (Rank(s.status) == 0 ==>
                  s'.status == s.status && s'.result == s.result && s'.failure == s.failure)
  {
  }

  lemma {:induction false} Settled(h: Hasher, s: State, ops: seq<Op>)
    requires Recognised(s.status)
    ensures var s' := Run(h, s, ops);
            && Recognised(s'.status) && Rank(s'.status) <= Rank(s.status)
            && s'.id == s.id && s'.actionName == s.actionName && s'.input == s.input
            && s.chunks <= s'.chunks && s.evidence <= s'.evidence
            && (Rank(s.status) <= 4 ==> s'.startedAt == s.startedAt)
            && (Rank(s.status) <= 3 ==> s'.capabilities == s.capabilities)
            && (Rank(s.status) <= 2 ==> s'.requiresApproval == s.requiresApproval)
            && (Rank(s.status) <= 1 ==> s'.decision == s.decision)
            && (Rank(s.status) == 0 ==>
                  s'.status == s.status && s'.result == s.result && s'.failure == s.failure)
    decreases |ops|
  {
    hide Apply;
    if ops != [] {
      SettledStep(h, s, ops[0]);
      Settled(h, Apply(h, s, ops[0]).0, ops[1..]);
    }
  }

  // ---- what is kept ----

  /** What one operation, if accepted in s, leaves in the session for good and announces. */
  ghost predicate KeptBy(op: Op, s: State, t: State, raised: seq<Event>) {
    match op
    case MarkValidated(now) => t.startedAt == now && SessionStarted(now) in raised
    case MarkResolved(caps) => t.capabilities == caps
    case MarkAwaitingApproval(now) => t.requiresApproval && SessionAwaitingApproval(now) in raised
    case Approve(d, now) => t.decision == Some(d) && SessionApproved(d.principal, now) in raised
    case Reject(reason, d, now) => t.decision == Some(d) && Ended(t, Rejected, None, Some(reason))
    case MarkRunning => true
    case Succeed(r, _) => Ended(t, Succeeded, Some(r), None)
    case Fail(reason, _) => Ended(t, Failed, None, Some(reason))
    case Abort(reason, _) => !IsTerminal(s.status) ==> Ended(t, Failed, None, Some(reason))
    case Emit(c, now) =>
      var n := |s.chunks|;
      var stamped := c.(index := n, at := if c.at == ZERO_TIME then now else c.at);
      n < |t.chunks| && t.chunks[n] == stamped && ResultChunkEmitted(stamped, stamped.at) in raised
    case AppendEvidence(r, now) =>
      var n := |s.evidence|;
      && n < |t.evidence|
      && t.evidence[n] == r.(previousHash := t.evidence[n].previousHash, hash := t.evidence[n].hash)
      && EvidenceRecorded(r.kind, r.tokens, t.evidence[n].hash, now) in raised
    case PullEvents => true
  }

  predicate Ended(t: State, status: Status, result: Option<Result>, failure: Option<Failure>) {
    t.status == status && t.result == result && t.failure == failure
  }

  lemma KeptAtOnce(h: Hasher, s: State, op: Op)
    requires Inv(s) && Apply(h, s, op).1
    ensures KeptBy(op, s, Apply(h, s, op).0, Raised(h, s, op))
  {
  }

  /** What is settled by the accepted operation stays to the end. */
  lemma KeptOn(op: Op, s: State, s': State, t: State, raised: seq<Event>, all: seq<Event>)
    requires KeptBy(op, s, s', raised) && forall e | e in raised :: e in all
    requires s'.chunks <= t.chunks && s'.evidence <= t.evidence
    requires op.MarkValidated? ==> t.startedAt == s'.startedAt
    requires op.MarkResolved? ==> t.capabilities == s'.capabilities
    requires op.MarkAwaitingApproval? ==> t.requiresApproval == s'.requiresApproval
    requires op.Approve? || op.Reject? ==> t.decision == s'.decision
    requires IsTerminal(s'.status) ==> Ended(t, s'.status, s'.result, s'.failure)
    ensures KeptBy(op, s, t, all)
  {
  }

  /** How far an accepted operation takes a session. */
  lemma RankAfter(h: Hasher, s: State, op: Op)
    requires Recognised(s.status) && Apply(h, s, op).1
    ensures var r := Rank(Apply(h, s, op).0.status);
            && (op.MarkValidated? ==> r <= 4) && (op.MarkResolved? ==> r <= 3)
            && (op.MarkAwaitingApproval? ==> r <= 2) && (op.Approve? || op.Reject? ==> r <= 1)
  {
  }

  /** Over any run: what an accepted operation was given is in the session at the end, and was announced. */
  lemma AcceptedIsKept(h: Hasher, s: State, ops: seq<Op>, i: nat)
    requires Inv(s) && i < |ops| && Accepted(h, s, ops, i)
    ensures KeptBy(ops[i], At(h, s, ops, i), Run(h, s, ops), AllRaised(h, s, ops))
  {
    hide Apply, Run, Raised, AllRaised, KeptBy, Inv;
    var before, after := At(h, s, ops, i), At(h, s, ops, i + 1);
    Around(h, s, ops, i);
    RunKeeps(h, s, ops[..i]);
    ApplyKeepsInv(h, before, ops[i]);
    InvRecognised(before);
    InvRecognised(after);
    KeptAtOnce(h, before, ops[i]);
    RankAfter(h, before, ops[i]);
    Settled(h, after, ops[i + 1..]);
    KeptOn(ops[i], before, after, Run(h, s, ops), Raised(h, before, ops[i]), AllRaised(h, s, ops));
  }

  lemma InvRecognised(s: State)
    requires Inv(s)
    ensures Recognised(s.status)
  {
  }

  // ---- how long it took ----

  /** Operation j is the one that ends the session. */
  predicate EndsAt(h: Hasher, s: State, ops: seq<Op>, j: nat)
    requires j < |ops|
  {
    !IsTerminal(At(h, s, ops, j).status) && IsTerminal(At(h, s, ops, j + 1).status)
  }

  lemma EndRaises(h: Hasher, s: State, op: Op)
    requires !IsTerminal(s.status) && IsTerminal(Apply(h, s, op).0.status)
    ensures op.Reject? || op.Succeed? || op.Fail? || op.Abort?
    ensures var s' := Apply(h, s, op).0;
            SessionCompleted(s'.status, if s.startedAt == ZERO_TIME then 0 else op.now - s.startedAt, op.now)
            in Raised(h, s, op)
  {
  }

  lemma EndAnnounced(h: Hasher, s: State, ops: seq<Op>, j: nat)
    requires Inv(s) && j < |ops| && EndsAt(h, s, ops, j)
    ensures ops[j].Reject? || ops[j].Succeed? || ops[j].Fail? || ops[j].Abort?
    ensures var start := At(h, s, ops, j).startedAt;
            SessionCompleted(Run(h, s, ops).status, if start == ZERO_TIME then 0 else ops[j].now - start, ops[j].now)
            in AllRaised(h, s, ops)
  {
    hide Apply, Run, Raised, AllRaised, Inv;
    Around(h, s, ops, j);
    EndRaises(h, At(h, s, ops, j), ops[j]);
    RunKeeps(h, s, ops[..j + 1]);
    RunKeeps(h, At(h, s, ops, j + 1), ops[j + 1..]);
  }

  /** The completion carries the time from the accepted MarkValidated to the operation that ended the session. */
  lemma DurationMeasured(h: Hasher, s: State, ops: seq<Op>, i: nat, j: nat)
    requires Inv(s) && i < j < |ops| && EndsAt(h, s, ops, j)
    requires ops[i].MarkValidated? && ops[i].now != ZERO_TIME && Accepted(h, s, ops, i)
    ensures ops[j].Reject? || ops[j].Succeed? || ops[j].Fail? || ops[j].Abort?
    ensures SessionCompleted(Run(h, s, ops).status, ops[j].now - ops[i].now, ops[j].now) in AllRaised(h, s, ops)
  {
    hide Apply, Run, Raised, AllRaised, Inv;
    EndAnnounced(h, s, ops, j);
    StartedSince(h, s, ops, i, j);
  }

  lemma StartedSince(h: Hasher, s: State, ops: seq<Op>, i: nat, j: nat)
    requires Inv(s) && i < j < |ops| && ops[i].MarkValidated? && Accepted(h, s, ops, i)
    ensures At(h, s, ops, j).startedAt == ops[i].now
  {
    hide Apply, Run, Raised, AllRaised, Inv;
    var first := ops[..j];
    assert first[..i] == ops[..i] && first[i] == ops[i];
    AcceptedIsKept(h, s, first, i);
  }

  /** A session that was never validated since it was made or reloaded ends with duration 0. */
  lemma {:induction false} NotMeasured(h: Hasher, s: State, ops: seq<Op>, j: nat)
    requires Inv(s) && s.startedAt == ZERO_TIME && j < |ops| && EndsAt(h, s, ops, j)
    requires forall i | 0 <= i < j :: !(ops[i].MarkValidated? && Accepted(h, s, ops, i))
    ensures ops[j].Reject? || ops[j].Succeed? || ops[j].Fail? || ops[j].Abort?
    ensures SessionCompleted(Run(h, s, ops).status, 0, ops[j].now) in AllRaised(h, s, ops)
  {
    hide Apply, Run, Raised, AllRaised, Inv;
    EndAnnounced(h, s, ops, j);
    RunEmpty(h, s);
    assert ops[..0] == [];
    for k := 0 to j
      invariant At(h, s, ops, k).startedAt == ZERO_TIME
    {
      Around(h, s, ops, k);
      StartStep(h, At(h, s, ops, k), ops[k]);
    }
  }

  lemma StartStep(h: Hasher, s: State, op: Op)
    ensures Apply(h, s, op).0.startedAt == if op.MarkValidated? && Apply(h, s, op).1 then op.now else s.startedAt
  {
  }

  // ---- nothing else gets in ----

  /** Something a session can say about its run. */
  datatype Fact =
    | Decided(decision: Decision)
    | Produced(result: Result)
    | FailedFor(reason: Failure)
    | Using(caps: seq<string>)
    | Started(at: Time)
    | Asked

  predicate Holds(t: State, fact: Fact) {
    match fact
    case Decided(d) => t.decision == Some(d)
    case Produced(r) => t.result == Some(r)
    case FailedFor(f) => t.failure == Some(f)
    case Using(caps) => t.capabilities == caps
    case Started(at) => t.startedAt == at
    case Asked => t.requiresApproval
  }

  /** The operations that may bring a fact about; an Abort only where the session is not over yet. */
  predicate Gives(op: Op, s: State, fact: Fact) {
    match fact
    case Decided(d) => (op.Approve? || op.Reject?) && op.decision == d
    case Produced(r) => op.Succeed? && op.result == r
    case FailedFor(f) => (op.Fail? || op.Reject? || (op.Abort? && !IsTerminal(s.status))) && op.reason == f
    case Using(caps) => op.MarkResolved? && op.caps == caps
    case Started(at) => op.MarkValidated? && op.now == at
    case Asked => op.MarkAwaitingApproval?
  }

  ghost predicate Given(h: Hasher, s: State, ops: seq<Op>, fact: Fact, i: nat) {
    i < |ops| && Accepted(h, s, ops, i) && Gives(ops[i], At(h, s, ops, i), fact)
  }

  lemma GivenAtOnce(h: Hasher, s: State, op: Op, fact: Fact)
    requires !Holds(s, fact) && Holds(Apply(h, s, op).0, fact)
    ensures Apply(h, s, op).1 && Gives(op, s, fact)
  {
  }

  /** A session says of its run what an accepted operation gave it, and nothing else. */
  lemma HoldsIffGiven(h: Hasher, s: State, ops: seq<Op>, fact: Fact)
    requires Inv(s) && !Holds(s, fact)
    ensures Holds(Run(h, s, ops), fact) <==> exists i: nat :: Given(h, s, ops, fact, i)
  {
    hide Apply, Run, Raised, AllRaised, Inv;
    if i: nat :| Given(h, s, ops, fact, i) {
      AcceptedIsKept(h, s, ops, i);
    }
    if Holds(Run(h, s, ops), fact) {
      RunEmpty(h, s);
      assert ops[..0] == [] && ops[..|ops|] == ops;
      var k := 0;
      while !Holds(At(h, s, ops, k + 1), fact)
        invariant k < |ops| && !Holds(At(h, s, ops, k), fact)
        decreases |ops| - k
      {
        k := k + 1;
      }
      Around(h, s, ops, k);
      GivenAtOnce(h, At(h, s, ops, k), ops[k], fact);
      assert Given(h, s, ops, fact, k);
    }
  }

  // ---- chunks and evidence ----

  /** The chunks of the Emit operations in order, numbered from n, stamped with the clock if they had no time. */
  function Emitted(ops: seq<Op>, n: nat): seq<Chunk> {
    if ops == [] then []
    else if ops[0].Emit? then
      var c := ops[0].chunk;
      [Chunk(n, c.kind, c.data, c.contentType, if c.at == ZERO_TIME then ops[0].now else c.at)]
      + Emitted(ops[1..], n + 1)
    else Emitted(ops[1..], n)
  }

  function Reported(ops: seq<Op>): seq<Record> {
    if ops == [] then [] else (if ops[0].AppendEvidence? then [ops[0].record] else []) + Reported(ops[1..])
  }

  lemma OutputStep(h: Hasher, s: State, op: Op)
    ensures var s' := Apply(h, s, op).0;
            && s'.chunks == s.chunks + Emitted([op], |s.chunks|)
            && s'.evidence == AppendAll(h, s.evidence, Reported([op]))
  {
    assert [op][1..] == [];
  }

  lemma OutputOne(op: Op, rest: seq<Op>, n: nat)
    ensures Emitted([op] + rest, n) == Emitted([op], n) + Emitted(rest, n + |Emitted([op], n)|)
    ensures Reported([op] + rest) == Reported([op]) + Reported(rest)
  {
    assert ([op] + rest)[1..] == rest && [op][1..] == [];
  }

  /** Whatever else happens, chunks and records are those handed over, in order. */
  lemma {:induction false} OutputInOrder(h: Hasher, s: State, ops: seq<Op>)
    ensures Run(h, s, ops).chunks == s.chunks + Emitted(ops, |s.chunks|)
    ensures Run(h, s, ops).evidence == AppendAll(h, s.evidence, Reported(ops))
    decreases |ops|
  {
    hide Apply, Append, Emitted, Reported;
    if ops == [] {
      NoOutput(h, s);
    } else {
      var s' := Apply(h, s, ops[0]).0;
      OutputStep(h, s, ops[0]);
      OutputInOrder(h, s', ops[1..]);
      assert ops == [ops[0]] + ops[1..];
      OutputOne(ops[0], ops[1..], |s.chunks|);
      AppendAllConcat(h, s.evidence, Reported([ops[0]]), Reported(ops[1..]));
    }
  }

  lemma NoOutput(h: Hasher, s: State)
    ensures Emitted([], |s.chunks|) == [] && AppendAll(h, s.evidence, Reported([])) == s.evidence
  {
  }

  lemma {:induction false} AppendAllConcat(h: Hasher, chain: seq<Record>, a: seq<Record>, b: seq<Record>)
    ensures AppendAll(h, chain, a + b) == AppendAll(h, AppendAll(h, chain, a), b)
    decreases |a|
  {
    hide Append;
    if a == [] {
      assert a + b == b;
    } else {
      assert (a + b)[0] == a[0] && (a + b)[1..] == a[1..] + b;
      AppendAllConcat(h, Append(h, chain, a[0]), a[1..], b);
    }
  }

  /** A new session's evidence is intact, and altering any record of it whose value can be encoded is reported there. */
  lemma EvidenceGuarded(h: Hasher, s: State, ops: seq<Op>, i: nat, r: Record, v: Verdict)
    requires h.Lawful() && s.evidence == [] && i < |Run(h, s, ops).evidence|
    requires var was := Run(h, s, ops).evidence[i]; r.hash == was.hash && r.previousHash == was.previousHash
    requires VerdictOf(h, Run(h, s, ops).evidence[i := r], v)
    ensures |Reported(ops)| == |Run(h, s, ops).evidence| && SameContent(h, Run(h, s, ops).evidence[i], Reported(ops)[i])
    ensures h.canonical(Reported(ops)[i].value) != Unencodable ==>
              v == if SameContent(h, r, Reported(ops)[i]) then Intact else BrokenHash(i)
  {
    hide Apply, Append, Run, Reported, Verified, AppendAll, VerdictOf;
    var chain, rs := Run(h, s, ops).evidence, Reported(ops);
    OutputInOrder(h, s, ops);
    AppendedAreHashed(h, [], rs);
    AppendAllShape(h, [], rs);
    NothingToVerify(h);
    AppendAllKeepsVerified(h, [], rs);
    assert SameContent(h, chain[0 + i], rs[i]);
    if h.canonical(rs[i].value) != Unencodable {
      assert chain[0 + i].hash != "";
      TamperReported(h, chain, i, r, v);
    }
  }

  lemma NothingToVerify(h: Hasher)
    ensures Verified(h, [])
  {
  }
}
