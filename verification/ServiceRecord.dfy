/** What an Execute leaves in the session and what a subscriber is told, event by event. */
module ServiceRecord {
  import opened Evidence
  import opened SessionModel
  import opened SessionLedger
  import opened Service
  import opened Numerals

  // ---- the order of the executor's output ----

  lemma {:induction false} EmitsInOrder(cs: seq<Chunk>, now: Time)
    ensures forall k | 0 <= k < |cs| :: Emits(cs, now)[k] == Emit(cs[k], now)
  {
    if cs != [] {
      EmitsInOrder(cs[..|cs| - 1], now);
    }
  }

  lemma {:induction false} AppendsInOrder(rs: seq<Record>, now: Time)
    ensures forall k | 0 <= k < |rs| :: Appends(rs, now)[k] == AppendEvidence(rs[k], now)
  {
    if rs != [] {
      AppendsInOrder(rs[..|rs| - 1], now);
    }
  }

  function Sum(rs: seq<Record>): int {
    if rs == [] then 0 else rs[0].tokens + Sum(rs[1..])
  }

  lemma {:induction false} SumSnoc(rs: seq<Record>, r: Record)
    ensures Sum(rs + [r]) == Sum(rs) + r.tokens
  {
    if rs == [] {
      assert [] + [r] == [r] && [r][1..] == [];
    } else {
      assert (rs + [r])[1..] == rs[1..] + [r];
      SumSnoc(rs[1..], r);
    }
  }

  /** The service adds up every record's tokens, in int64 arithmetic. */
  lemma {:induction false} TokensAddUp(rs: seq<Record>)
    ensures (Sum(rs) - Tokens(rs)) % 0x1_0000_0000_0000_0000 == 0
    ensures -0x8000_0000_0000_0000 <= Tokens(rs) < 0x8000_0000_0000_0000
    ensures -0x8000_0000_0000_0000 <= Sum(rs) < 0x8000_0000_0000_0000 ==> Tokens(rs) == Sum(rs)
  {
    hide Wrap64;
    if rs != [] {
      var n := |rs| - 1;
      TokensAddUp(rs[..n]);
      SumSnoc(rs[..n], rs[n]);
      assert rs == rs[..n] + [rs[n]];
      WrapNear(Sum(rs), Tokens(rs[..n]) + rs[n].tokens);
    }
  }

  lemma WrapNear(exact: int, sum: int)
    requires (exact - sum) % 0x1_0000_0000_0000_0000 == 0
    ensures (exact - Wrap64(sum)) % 0x1_0000_0000_0000_0000 == 0
    ensures -0x8000_0000_0000_0000 <= Wrap64(sum) < 0x8000_0000_0000_0000
    ensures -0x8000_0000_0000_0000 <= exact < 0x8000_0000_0000_0000 ==> Wrap64(sum) == exact
  {
  }

  // ---- what a run adds to the session ----

  lemma {:induction false} OutputConcat(a: seq<Op>, b: seq<Op>, n: nat)
    ensures Emitted(a + b, n) == Emitted(a, n) + Emitted(b, n + |Emitted(a, n)|)
    ensures Reported(a + b) == Reported(a) + Reported(b)
  {
    hide Emitted, Reported;
    if a == [] {
      assert a + b == b;
      NoOps(n);
    } else {
      assert a == [a[0]] + a[1..] && a + b == [a[0]] + (a[1..] + b);
      OutputOne(a[0], a[1..], n);
      OutputOne(a[0], a[1..] + b, n);
      OutputConcat(a[1..], b, n + |Emitted([a[0]], n)|);
    }
  }

  lemma NoOps(n: nat)
    ensures Emitted([], n) == [] && Reported([]) == []
  {
  }

  /** The chunk a session stores for the k-th one handed over. */
  predicate Stored(stored: Chunk, c: Chunk, index: nat, now: Time) {
    && stored.index == index && stored.kind == c.kind && stored.data == c.data
    && stored.contentType == c.contentType
    && stored.at == if c.at == ZERO_TIME then now else c.at
  }

  lemma {:induction false} EmitsOutput(cs: seq<Chunk>, now: Time, n: nat)
    ensures Reported(Emits(cs, now)) == []
    ensures var out := Emitted(Emits(cs, now), n);
            |out| == |cs| && forall k | 0 <= k < |cs| :: Stored(out[k], cs[k], n + k, now)
  {
    if cs != [] {
      var m := |cs| - 1;
      EmitsOutput(cs[..m], now, n);
      OutputConcat(Emits(cs[..m], now), [Emit(cs[m], now)], n);
      OneEmitted(cs[m], now, n + m);
    }
  }

  lemma OneEmitted(c: Chunk, now: Time, n: nat)
    ensures Reported([Emit(c, now)]) == []
    ensures |Emitted([Emit(c, now)], n)| == 1 && Stored(Emitted([Emit(c, now)], n)[0], c, n, now)
  {
    assert [Emit(c, now)][1..] == [];
  }

  lemma {:induction false} AppendsOutput(rs: seq<Record>, now: Time, n: nat)
    ensures Emitted(Appends(rs, now), n) == [] && Reported(Appends(rs, now)) == rs
  {
    if rs != [] {
      var m := |rs| - 1;
      AppendsOutput(rs[..m], now, n);
      OutputConcat(Appends(rs[..m], now), [AppendEvidence(rs[m], now)], n);
      OneReported(rs[m], now, n);
    }
  }

  lemma OneReported(r: Record, now: Time, n: nat)
    ensures Emitted([AppendEvidence(r, now)], n) == [] && Reported([AppendEvidence(r, now)]) == [r]
  {
    assert [AppendEvidence(r, now)][1..] == [];
  }

  lemma SilentOutput(op: Op, n: nat)
    requires !op.Emit? && !op.AppendEvidence?
    ensures Emitted([op], n) == [] && Reported([op]) == []
  {
    assert [op][1..] == [];
  }

  /** The run script of an action whose executor is called, by its parts. */
  function Head(status: Status): seq<Op> {
    if status != Running then [MarkRunning] else []
  }

  lemma HeadOutput(status: Status, n: nat)
    ensures Emitted(Head(status), n) == [] && Reported(Head(status)) == []
  {
    SilentOutput(MarkRunning, n);
    NoOps(n);
  }

  lemma ScriptParts(maxTokens: int, w: World, status: Status)
    requires (status == Running || status == Resolved) && w.resolvesAgain && w.executorKnown
    ensures RunScript(maxTokens, w, status)
         == Head(status) + Emits(w.chunks, w.now) + Appends(w.reported, w.now) + [Outcome(maxTokens, w)]
  {
    hide Emits, Appends, Outcome;
    assert Head(status) + (Emits(w.chunks, w.now) + Appends(w.reported, w.now) + [Outcome(maxTokens, w)])
        == Head(status) + Emits(w.chunks, w.now) + Appends(w.reported, w.now) + [Outcome(maxTokens, w)];
  }

  lemma OutcomeIsSilent(maxTokens: int, w: World, n: nat)
    ensures Emitted([Outcome(maxTokens, w)], n) == [] && Reported([Outcome(maxTokens, w)]) == []
  {
    hide Overspent, Tokens;
    SilentOutput(Outcome(maxTokens, w), n);
  }

  lemma ScriptOutput(maxTokens: int, w: World, status: Status, n: nat)
    requires (status == Running || status == Resolved) && w.resolvesAgain && w.executorKnown
    ensures Reported(RunScript(maxTokens, w, status)) == w.reported
    ensures Emitted(RunScript(maxTokens, w, status), n) == Emitted(Emits(w.chunks, w.now), n)
  {
    hide Emitted, Reported, Emits, Appends, Outcome, RunScript, Head;
    var a, b, c := Head(status), Emits(w.chunks, w.now), Appends(w.reported, w.now);
    var d := [Outcome(maxTokens, w)];
    ScriptParts(maxTokens, w, status);
    HeadOutput(status, n);
    OutputConcat(a, b, n);
    OutputConcat(a + b, c, n);
    OutputConcat(a + b + c, d, n);
    EmitsOutput(w.chunks, w.now, n);
    AppendsOutput(w.reported, w.now, n + |Emitted(a + b, n)|);
    OutcomeIsSilent(maxTokens, w, n + |Emitted(a + b + c, n)|);
  }

  /** After a run that called the executor the session holds all it streamed and all it reported, in order. */
  lemma RunOutput(h: Hasher, maxTokens: int, w: World, s: State)
    requires (s.status == Running || s.status == Resolved) && w.resolvesAgain && w.executorKnown
    ensures var t := Run(h, s, RunScript(maxTokens, w, s.status));
            && t.evidence == AppendAll(h, s.evidence, w.reported)
            && s.chunks <= t.chunks && |t.chunks| == |s.chunks| + |w.chunks|
            && forall k | 0 <= k < |w.chunks| ::
                 Stored(t.chunks[|s.chunks| + k], w.chunks[k], |s.chunks| + k, w.now)
  {
    hide Run, RunScript, Emitted, Reported, AppendAll, Emits;
    OutputInOrder(h, s, RunScript(maxTokens, w, s.status));
    ScriptOutput(maxTokens, w, s.status, |s.chunks|);
    EmitsOutput(w.chunks, w.now, |s.chunks|);
  }

  /** How a run that called the executor ends: the first fault in this order names the failure. */
  predicate EndsAs(t: State, maxTokens: int, w: World) {
    var used := Tokens(w.reported);
    if w.executorError.Some? then
      Ended(t, Failed, None, Some(Failure("EXECUTION_ERROR", w.executorError.value)))
    else if 0 < maxTokens < used then
      Ended(t, Failed, None, Some(Failure("BUDGET_EXCEEDED", "token budget " + Decimal(maxTokens)
                                                             + " exceeded: used " + Decimal(used))))
    else if w.outputDeclared && !w.outputValid then
      Ended(t, Failed, None, Some(Failure("OUTPUT_VALIDATION_ERROR", w.outputError)))
    else Ended(t, Succeeded, Some(w.result), None)
  }

  lemma OutcomeEnds(h: Hasher, maxTokens: int, w: World, s: State)
    requires s.status == Running && s.result == None && s.failure == None
    ensures EndsAs(Apply(h, s, Outcome(maxTokens, w)).0, maxTokens, w)
  {
    hide Tokens, Decimal;
  }

  lemma HeadRuns(h: Hasher, s: State)
    requires s.status == Running || s.status == Resolved
    ensures Run(h, s, Head(s.status)) == s.(status := Running) && AllRaised(h, s, Head(s.status)) == []
  {
    RunOne(h, s, MarkRunning);
    RunEmpty(h, s);
  }

  lemma RunEnds(h: Hasher, maxTokens: int, w: World, s: State)
    requires (s.status == Running || s.status == Resolved) && s.result == None && s.failure == None
    requires w.resolvesAgain
    ensures var t := Run(h, s, RunScript(maxTokens, w, s.status));
            if w.executorKnown then EndsAs(t, maxTokens, w)
            else Ended(t, Failed, None, Some(Failure("EXECUTOR_NOT_FOUND", w.lookupError)))
  {
    hide Run, AllRaised, Apply, Emits, Appends, Outcome, RunScript;
    HeadRuns(h, s);
    if w.executorKnown {
      var mid := Emits(w.chunks, w.now) + Appends(w.reported, w.now);
      ScriptParts(maxTokens, w, s.status);
      EmitsQuiet(w.chunks, w.now);
      AppendsQuiet(w.reported, w.now);
      QuietRun(h, s.(status := Running), mid);
      RunConcat(h, s, Head(s.status), mid);
      assert Head(s.status) + mid + [Outcome(maxTokens, w)]
          == Head(s.status) + Emits(w.chunks, w.now) + Appends(w.reported, w.now) + [Outcome(maxTokens, w)];
      RunSnoc(h, s, Head(s.status) + mid, Outcome(maxTokens, w));
      OutcomeEnds(h, maxTokens, w, Run(h, s, Head(s.status) + mid));
    } else {
      var reason := Failure("EXECUTOR_NOT_FOUND", w.lookupError);
      NotFoundScript(maxTokens, w, s.status);
      RunSnoc(h, s, Head(s.status), Fail(reason, w.done));
      FailEnds(h, s.(status := Running), reason, w.done);
    }
  }

  lemma NotFoundScript(maxTokens: int, w: World, status: Status)
    requires (status == Running || status == Resolved) && w.resolvesAgain && !w.executorKnown
    ensures RunScript(maxTokens, w, status)
         == Head(status) + [Fail(Failure("EXECUTOR_NOT_FOUND", w.lookupError), w.done)]
  {
  }

  lemma FailEnds(h: Hasher, s: State, reason: Failure, now: Time)
    requires s.status == Running && s.result == None
    ensures Ended(Apply(h, s, Fail(reason, now)).0, Failed, None, Some(reason))
  {
  }

  // ---- what a subscriber is told ----

  function ChunkEvents(cs: seq<Chunk>): seq<Event> {
    seq(|cs|, i requires 0 <= i < |cs| => ResultChunkEmitted(cs[i], cs[i].at))
  }

  function EvidenceEvents(rs: seq<Record>, now: Time): seq<Event> {
    seq(|rs|, i requires 0 <= i < |rs| => EvidenceRecorded(rs[i].kind, rs[i].tokens, rs[i].hash, now))
  }

  lemma EmitRaises(h: Hasher, s: State, c: Chunk, now: Time)
    ensures var t := Apply(h, s, Emit(c, now)).0;
            && s.chunks <= t.chunks && |t.chunks| == |s.chunks| + 1 && t.evidence == s.evidence
            && t.status == s.status && t.startedAt == s.startedAt
            && Raised(h, s, Emit(c, now))
               == [ResultChunkEmitted(t.chunks[|s.chunks|], t.chunks[|s.chunks|].at)]
  {
  }

  lemma AppendRaises(h: Hasher, s: State, r: Record, now: Time)
    ensures var t := Apply(h, s, AppendEvidence(r, now)).0;
            && s.evidence <= t.evidence && |t.evidence| == |s.evidence| + 1 && t.chunks == s.chunks
            && t.status == s.status && t.startedAt == s.startedAt
            && Raised(h, s, AppendEvidence(r, now))
               == [EvidenceRecorded(t.evidence[|s.evidence|].kind, t.evidence[|s.evidence|].tokens,
                                    t.evidence[|s.evidence|].hash, now)]
  {
  }

  lemma {:induction false} EmitsRaise(h: Hasher, s: State, cs: seq<Chunk>, now: Time)
    ensures var t := Run(h, s, Emits(cs, now));
            && s.chunks <= t.chunks && t.evidence == s.evidence && t.status == s.status
            && t.startedAt == s.startedAt
            && AllRaised(h, s, Emits(cs, now)) == ChunkEvents(t.chunks[|s.chunks|..])
  {
    hide Run, Apply, Raised, AllRaised;
    if cs == [] {
      RunEmpty(h, s);
    } else {
      var m := |cs| - 1;
      var ops, op := Emits(cs[..m], now), Emit(cs[m], now);
      var u := Run(h, s, ops);
      EmitsRaise(h, s, cs[..m], now);
      RunSnoc(h, s, ops, op);
      RaisedConcat(h, s, ops, [op]);
      RunOne(h, u, op);
      EmitRaises(h, u, cs[m], now);
    }
  }

  lemma {:induction false} AppendsRaise(h: Hasher, s: State, rs: seq<Record>, now: Time)
    ensures var t := Run(h, s, Appends(rs, now));
            && s.evidence <= t.evidence && t.chunks == s.chunks && t.status == s.status
            && t.startedAt == s.startedAt
            && AllRaised(h, s, Appends(rs, now)) == EvidenceEvents(t.evidence[|s.evidence|..], now)
  {
    hide Run, Apply, Raised, AllRaised;
    if rs == [] {
      RunEmpty(h, s);
    } else {
      var m := |rs| - 1;
      var ops, op := Appends(rs[..m], now), AppendEvidence(rs[m], now);
      var u := Run(h, s, ops);
      AppendsRaise(h, s, rs[..m], now);
      RunSnoc(h, s, ops, op);
      RaisedConcat(h, s, ops, [op]);
      RunOne(h, u, op);
      AppendRaises(h, u, rs[m], now);
    }
  }

  lemma OutcomeRaises(h: Hasher, maxTokens: int, w: World, s: State)
    requires s.status == Running
    ensures var t := Apply(h, s, Outcome(maxTokens, w)).0;
            && t.chunks == s.chunks && t.evidence == s.evidence
            && Raised(h, s, Outcome(maxTokens, w))
               == [SessionCompleted(t.status, if s.startedAt == ZERO_TIME then 0 else w.done - s.startedAt, w.done)]
  {
    hide Tokens, Overspent;
  }

  /** A run that called the executor raises one event for each chunk, then one for each record, then the completion. */
  lemma RunRaises(h: Hasher, maxTokens: int, w: World, s: State)
    requires (s.status == Running || s.status == Resolved) && w.resolvesAgain && w.executorKnown
    ensures var script := RunScript(maxTokens, w, s.status);
            var t := Run(h, s, script);
            && s.chunks <= t.chunks && s.evidence <= t.evidence
            && AllRaised(h, s, script) ==
                 ChunkEvents(t.chunks[|s.chunks|..]) + EvidenceEvents(t.evidence[|s.evidence|..], w.now)
                 + [SessionCompleted(t.status, if s.startedAt == ZERO_TIME then 0 else w.done - s.startedAt, w.done)]
  {
    hide Run, AllRaised, Apply, Raised, Emits, Appends, Outcome, RunScript, ChunkEvents, EvidenceEvents, Head;
    var a, b, c := Head(s.status), Emits(w.chunks, w.now), Appends(w.reported, w.now);
    var op := Outcome(maxTokens, w);
    var s1 := s.(status := Running);
    var s2 := Run(h, s1, b);
    var s3 := Run(h, s2, c);
    ScriptParts(maxTokens, w, s.status);
    HeadRuns(h, s);
    RunConcat(h, s, a, b);
    RaisedConcat(h, s, a, b);
    EmitsRaise(h, s1, w.chunks, w.now);
    RunConcat(h, s, a + b, c);
    RaisedConcat(h, s, a + b, c);
    AppendsRaise(h, s2, w.reported, w.now);
    RunConcat(h, s, a + b + c, [op]);
    RaisedConcat(h, s, a + b + c, [op]);
    RunOne(h, s3, op);
    OutcomeRaises(h, maxTokens, w, s3);
  }

  // ---- what Execute publishes ----

  ghost predicate Undrained(ops: seq<Op>) {
    forall i | 0 <= i < |ops| :: !ops[i].PullEvents?
  }

  lemma {:induction false} NothingDrained(h: Hasher, s: State, ops: seq<Op>)
    requires Undrained(ops)
    ensures Published(h, s, ops) == [] && Run(h, s, ops).pending == s.pending + AllRaised(h, s, ops)
    decreases |ops|
  {
    hide Apply, Raised;
    EventsConserved(h, s, ops);
    if ops != [] {
      NothingDrained(h, Apply(h, s, ops[0]).0, ops[1..]);
    }
  }

  lemma RunUndrained(maxTokens: int, w: World, status: Status)
    ensures Undrained(RunScript(maxTokens, w, status))
  {
    hide Tokens, Overspent;
    EmitsQuiet(w.chunks, w.now);
    AppendsQuiet(w.reported, w.now);
  }

  /** Validation, its drain and the resolution. */
  function Entry(w: World): seq<Op> {
    [MarkValidated(w.now), PullEvents, MarkResolved(w.capabilities)]
  }

  lemma EntryRuns(h: Hasher, s: State, w: World)
    requires s.status == Pending
    ensures Run(h, s, Entry(w))
         == s.(status := Resolved, startedAt := w.now, capabilities := w.capabilities, pending := [])
    ensures Published(h, s, Entry(w)) == s.pending + [SessionStarted(w.now)]
  {
    var a, b, c := MarkValidated(w.now), PullEvents, MarkResolved(w.capabilities);
    NoRun(h, s);
    Extend(h, s, [], a);
    Extend(h, s, [a], b);
    Extend(h, s, [a, b], c);
    assert [] + [a] == [a] && [a] + [b] == [a, b] && [a, b] + [c] == [a, b, c];
  }

  lemma BodyOf(maxTokens: int, w: World)
    requires Admitted(w) && !w.cancelledLate && w.resolves
    ensures var script := ExecuteScript(maxTokens, w, Pending);
            script[..|script| - 1]
            == Entry(w) + if Gated(w) then [MarkAwaitingApproval(w.now)] else RunScript(maxTokens, w, Resolved)
  {
    hide RunScript;
    var body := Entry(w) + if Gated(w) then [MarkAwaitingApproval(w.now)] else RunScript(maxTokens, w, Resolved);
    assert ExecuteScript(maxTokens, w, Pending) == body + [PullEvents];
  }

  /** What is published after the entry: the alarm at once, what the rest raises with the last drain. */
  lemma TailTells(h: Hasher, maxTokens: int, w: World, s: State, tail: seq<Op>)
    requires s.status == Pending && Admitted(w) && !w.cancelledLate && w.resolves && Undrained(tail)
    requires tail == if Gated(w) then [MarkAwaitingApproval(w.now)] else RunScript(maxTokens, w, Resolved)
    ensures var s1 := s.(status := Resolved, startedAt := w.now, capabilities := w.capabilities, pending := []);
            && Run(h, s, ExecuteScript(maxTokens, w, Pending)) == Run(h, s1, tail).(pending := [])
            && ExecutePublishes(h, maxTokens, w, s)
               == s.pending + [SessionStarted(w.now)]
                  + Alarm(w, ExecuteStarts(w, Pending) && Alarmed(maxTokens, w)) + AllRaised(h, s1, tail)
  {
    hide Run, AllRaised, Published, RunScript, Apply, Entry;
    var script := ExecuteScript(maxTokens, w, Pending);
    var body := script[..|script| - 1];
    BodyOf(maxTokens, w);
    EntryRuns(h, s, w);
    var s1 := Run(h, s, Entry(w));
    RunConcat(h, s, Entry(w), tail);
    PublishedConcat(h, s, Entry(w), tail);
    NothingDrained(h, s1, tail);
    ScriptDrains(maxTokens, w);
    assert script == body + [PullEvents];
    RunSnoc(h, s, body, PullEvents);
    DrainOnly(h, Run(h, s, body));
    assert s1.pending + AllRaised(h, s1, tail) == AllRaised(h, s1, tail);
    assert Published(h, s, Entry(w)) + [] == Published(h, s, Entry(w));
  }

  lemma ScriptDrains(maxTokens: int, w: World)
    ensures var script := ExecuteScript(maxTokens, w, Pending); |script| > 0 && script[|script| - 1] == PullEvents
  {
    hide RunScript;
  }

  lemma DrainOnly(h: Hasher, s: State)
    ensures Apply(h, s, PullEvents).0 == s.(pending := [])
  {
  }

  lemma WaitRaises(h: Hasher, s: State, now: Time)
    requires s.status == Resolved
    ensures AllRaised(h, s, [MarkAwaitingApproval(now)]) == [SessionAwaitingApproval(now)]
    ensures Run(h, s, [MarkAwaitingApproval(now)]).chunks == s.chunks
  {
    RunOne(h, s, MarkAwaitingApproval(now));
  }

  /**
   * What a subscriber is told of an Execute on a new session, event by event: the start; then the alarm when the
   * tokens exceed the budget of an executor that reported no error, ahead of what the executor streamed; then the
   * chunks and the records as the session stores them, and the completion.
   */
  lemma ExecuteTells(h: Hasher, maxTokens: int, w: World, s: State)
    requires s.status == Pending && Admitted(w) && !w.cancelledLate && w.resolves && !(w.writes && w.external)
    requires w.resolvesAgain && w.executorKnown
    ensures var t := Run(h, s, ExecuteScript(maxTokens, w, Pending));
            && s.chunks <= t.chunks && s.evidence <= t.evidence && t.capabilities == w.capabilities
            && ExecutePublishes(h, maxTokens, w, s) ==
                 s.pending + [SessionStarted(w.now)]
                 + (if w.executorError.None? && 0 < maxTokens < Tokens(w.reported)
                    then [TokensExceeded(w.done)] else [])
                 + (ChunkEvents(t.chunks[|s.chunks|..]) + EvidenceEvents(t.evidence[|s.evidence|..], w.now)
                    + [SessionCompleted(t.status, if w.now == ZERO_TIME then 0 else w.done - w.now, w.done)])
  {
    hide Run, AllRaised, RunScript, ExecuteScript, ExecutePublishes, Published, Tokens, ChunkEvents, EvidenceEvents;
    var s1 := s.(status := Resolved, startedAt := w.now, capabilities := w.capabilities, pending := []);
    var tail := RunScript(maxTokens, w, Resolved);
    RunUndrained(maxTokens, w, Resolved);
    TailTells(h, maxTokens, w, s, tail);
    RunRaises(h, maxTokens, w, s1);
    Capable(h, s1, tail);
  }

  lemma Capable(h: Hasher, s: State, ops: seq<Op>)
    requires s.status == Resolved
    ensures Run(h, s, ops).capabilities == s.capabilities
  {
    Settled(h, s, ops);
  }

  /** And of one that comes to wait: the start, then that it waits. */
  lemma ExecuteTellsOfWaiting(h: Hasher, maxTokens: int, w: World, s: State)
    requires s.status == Pending && Admitted(w) && !w.cancelledLate && w.resolves && w.writes && w.external
    ensures Run(h, s, ExecuteScript(maxTokens, w, Pending)).capabilities == w.capabilities
    ensures ExecutePublishes(h, maxTokens, w, s)
         == s.pending + [SessionStarted(w.now), SessionAwaitingApproval(w.now)]
  {
    hide Run, AllRaised, RunScript, ExecuteScript, ExecutePublishes, Published;
    var s1 := s.(status := Resolved, startedAt := w.now, capabilities := w.capabilities, pending := []);
    var tail := [MarkAwaitingApproval(w.now)];
    TailTells(h, maxTokens, w, s, tail);
    WaitRaises(h, s1, w.now);
    Capable(h, s1, tail);
    var told := s.pending + [SessionStarted(w.now)];
    assert told + [] + [SessionAwaitingApproval(w.now)]
        == s.pending + [SessionStarted(w.now), SessionAwaitingApproval(w.now)];
  }

  /** And of a Resume: whatever was not published yet, such as the approval, comes before what the run raises. */
  lemma ResumeTells(h: Hasher, maxTokens: int, w: World, s: State)
    requires s.status == Running && !w.rateLimited && w.actionKnown && w.resolvesAgain && w.executorKnown
    ensures var script := ResumeScript(maxTokens, w, Running);
            var t := Run(h, s, script);
            && s.chunks <= t.chunks && s.evidence <= t.evidence && t.pending == []
            && Published(h, s, script) ==
                 s.pending
                 + (ChunkEvents(t.chunks[|s.chunks|..]) + EvidenceEvents(t.evidence[|s.evidence|..], w.now)
                    + [SessionCompleted(t.status, if s.startedAt == ZERO_TIME then 0 else w.done - s.startedAt,
                                        w.done)])
  {
    hide Run, AllRaised, RunScript, Published, Apply, ChunkEvents, EvidenceEvents;
    var tail := RunScript(maxTokens, w, Running);
    RunUndrained(maxTokens, w, Running);
    NothingDrained(h, s, tail);
    Extend(h, s, tail, PullEvents);
    DrainOnly(h, Run(h, s, tail));
    RunRaises(h, maxTokens, w, s);
  }

  /** When the executor is called, and when the caller is told that all went as far as it could. */
  lemma StartsIff(w: World, status: Status)
    ensures var reaches := status == Pending && !w.rateLimited && w.actionKnown && !w.cancelledEarly && w.inputValid
                           && !w.cancelledLate && w.resolves;
            && (ExecuteStarts(w, status) <==>
                  reaches && !(w.writes && w.external) && w.resolvesAgain && w.executorKnown)
            && (ExecuteOk(w, status) <==>
                  reaches && ((w.writes && w.external) || (w.resolvesAgain && w.executorKnown)))
    ensures ResumeStarts(w, status) <==>
            status == Running && !w.rateLimited && w.actionKnown && w.resolvesAgain && w.executorKnown
  {
  }
}
