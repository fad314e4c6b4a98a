/** The session aggregate: one method per locked method of the source, each with its whole effect. */
module Session {
  import opened Evidence
  import opened SessionModel
  import opened SnapshotModel

  class ExecutionSession {
    const id: string
    const actionName: string
    const input: Any
    var status: Status
    var requiresApproval: bool
    var resolvedCapabilities: seq<string>
    var evidence: seq<Record>
    var result: Option<Result>
    var failure: Option<Failure>
    var approvalDecision: Option<Decision>
    var startedAt: Time
    var resultChunks: seq<Chunk>
    var pendingEvents: seq<Event>

    ghost function View(): State
      reads this
    {
      State(id, actionName, input, status, requiresApproval, resolvedCapabilities, evidence, result, failure,
            approvalDecision, startedAt, resultChunks, pendingEvents)
    }

    constructor (id: string, actionName: string, input: Any)
      requires id != "" && actionName != ""
      ensures NewSession(id, actionName, input) == Some(View())
      ensures this.id == id && this.actionName == actionName && this.input == input && status == Pending
      ensures evidence == [] && resultChunks == [] && pendingEvents == [] && startedAt == ZERO_TIME
      ensures Inv(View())
    {
      this.id, this.actionName, this.input := id, actionName, input;
      status, requiresApproval := Pending, false;
      resolvedCapabilities, evidence, resultChunks, pendingEvents := [], [], [], [];
      result, failure, approvalDecision, startedAt := None, None, None, ZERO_TIME;
    }

    /** A session rebuilt from a snapshot that loads. */
    constructor Restore(p: Snapshot, chunks: seq<Chunk>)
      requires FromSnapshot(p).Session? && chunks == ChunksFromSnapshot(p.chunks)
      ensures View() == FromSnapshot(p).state
    {
      id, actionName, input := p.id, p.actionName, p.input;
      status, requiresApproval := p.status, p.requiresApproval;
      resolvedCapabilities, evidence, resultChunks, pendingEvents := p.capabilities, p.evidence, chunks, [];
      result, failure, approvalDecision, startedAt := p.result, p.failure, p.decision, ZERO_TIME;
    }

    /** transitionTo. */
    method TransitionTo(target: Status) returns (ok: bool)
      modifies this`status
      ensures ok <==> ValidTransition(old(status)) == Some(target)
      ensures status == if ok then target else old(status)
    {
      if ValidTransition(status) != Some(target) {
        return false;
      }
      status := target;
      return true;
    }

    method RecordEvent(e: Event)
      modifies this`pendingEvents
      ensures pendingEvents == old(pendingEvents) + [e]
    {
      pendingEvents := pendingEvents + [e];
    }

    method RecordCompletion(completed: Status, now: Time)
      requires completed == status
      modifies this`pendingEvents
      ensures View() == Completed(old(View()), now)
    {
      var duration := 0;
      if startedAt != ZERO_TIME {
        duration := now - startedAt;
      }
      RecordEvent(SessionCompleted(completed, duration, now));
    }

    method MarkValidated(ghost h: Hasher, now: Time) returns (ok: bool)
      modifies this
      ensures (View(), ok) == Apply(h, old(View()), Op.MarkValidated(now))
    {
      ok := TransitionTo(Validated);
      if ok {
        startedAt := now;
        RecordEvent(SessionStarted(now));
      }
    }

    method MarkResolved(ghost h: Hasher, caps: seq<string>) returns (ok: bool)
      modifies this
      ensures (View(), ok) == Apply(h, old(View()), Op.MarkResolved(caps))
    {
      ok := TransitionTo(Resolved);
      if ok {
        resolvedCapabilities := caps;
      }
    }

    method MarkAwaitingApproval(ghost h: Hasher, now: Time) returns (ok: bool)
      modifies this
      ensures (View(), ok) == Apply(h, old(View()), Op.MarkAwaitingApproval(now))
    {
      if status != Resolved {
        return false;
      }
      status := AwaitingApproval;
      requiresApproval := true;
      RecordEvent(SessionAwaitingApproval(now));
      return true;
    }

    method Approve(ghost h: Hasher, decision: Decision, now: Time) returns (ok: bool)
      modifies this
      ensures (View(), ok) == Apply(h, old(View()), Op.Approve(decision, now))
    {
      if decision.principal == "" {
        return false;
      }
      if status != AwaitingApproval {
        return false;
      }
      approvalDecision := Some(decision);
      status := Running;
      RecordEvent(SessionApproved(decision.principal, now));
      return true;
    }

    method Reject(ghost h: Hasher, reason: Failure, decision: Decision, now: Time) returns (ok: bool)
      modifies this
      ensures (View(), ok) == Apply(h, old(View()), Op.Reject(reason, decision, now))
    {
      if decision.principal == "" {
        return false;
      }
      if status != AwaitingApproval {
        return false;
      }
      approvalDecision := Some(decision);
      status := Rejected;
      failure := Some(reason);
      RecordCompletion(Rejected, now);
      return true;
    }

    method MarkRunning(ghost h: Hasher) returns (ok: bool)
      modifies this
      ensures (View(), ok) == Apply(h, old(View()), Op.MarkRunning)
    {
      ok := TransitionTo(Running);
    }

    method Succeed(ghost h: Hasher, r: Result, now: Time) returns (ok: bool)
      modifies this
      ensures (View(), ok) == Apply(h, old(View()), Op.Succeed(r, now))
    {
      ok := TransitionTo(Succeeded);
      if ok {
        result := Some(r);
        RecordCompletion(Succeeded, now);
      }
    }

    method Fail(ghost h: Hasher, reason: Failure, now: Time) returns (ok: bool)
      modifies this
      ensures (View(), ok) == Apply(h, old(View()), Op.Fail(reason, now))
    {
      if status != Running {
        return false;
      }
      status := Failed;
      failure := Some(reason);
      RecordCompletion(Failed, now);
      return true;
    }

    method Abort(ghost h: Hasher, reason: Failure, now: Time)
      modifies this
      ensures (View(), true) == Apply(h, old(View()), Op.Abort(reason, now))
    {
      if IsTerminal(status) {
        return;
      }
      status := Failed;
      failure := Some(reason);
      RecordCompletion(Failed, now);
    }

    method Emit(ghost h: Hasher, chunk: Chunk, now: Time)
      modifies this
      ensures (View(), true) == Apply(h, old(View()), Op.Emit(chunk, now))
    {
      var c := chunk.(index := |resultChunks|);
      if c.at == ZERO_TIME {
        c := c.(at := now);
      }
      resultChunks := resultChunks + [c];
      RecordEvent(ResultChunkEmitted(c, c.at));
    }

    method AppendEvidence(h: Hasher, record: Record, now: Time)
      modifies this
      ensures (View(), true) == Apply(h, old(View()), Op.AppendEvidence(record, now))
      ensures Verified(h, old(evidence)) ==> Verified(h, evidence)
    {
      var previousHash := "";
      if |evidence| > 0 {
        previousHash := evidence[|evidence| - 1].hash;
      }
      var r := record.(previousHash := previousHash);
      r := r.(hash := ComputeHash(h, r, previousHash));
      if Verified(h, evidence) {
        AppendKeepsVerified(h, evidence, record);
      }
      evidence := evidence + [r];
      RecordEvent(EvidenceRecorded(r.kind, r.tokens, r.hash, now));
    }

    method VerifyEvidenceChain(h: Hasher) returns (v: Verdict)
      ensures VerdictOf(h, evidence, v)
    {
      v := VerifyChain(h, evidence);
    }

    method PullEvents(ghost h: Hasher) returns (events: seq<Event>)
      modifies this`pendingEvents
      ensures events == old(pendingEvents)
      ensures (View(), true) == Apply(h, old(View()), Op.PullEvents)
    {
      events := pendingEvents;
      pendingEvents := [];
    }

    method TakeSnapshot() returns (p: Snapshot)
      ensures p == ToSnapshot(View())
    {
      var chunks := [];
      for i := 0 to |resultChunks|
        invariant |chunks| == i
        invariant forall j | 0 <= j < i :: chunks[j] == ChunkToSnapshot(resultChunks[j])
      {
        chunks := chunks + [ChunkToSnapshot(resultChunks[i])];
      }
      assert chunks == ChunksToSnapshot(resultChunks);
      p := Snapshot(CURRENT_SCHEMA, id, actionName, input, status, requiresApproval, resolvedCapabilities,
                    evidence, chunks, result, failure, approvalDecision);
    }
  }

  /** SessionFromSnapshot: refuses an empty ID first, then a schema it does not know. */
  method SessionFromSnapshot(p: Snapshot) returns (s: ExecutionSession?, error: Option<LoadError>)
    ensures FromSnapshot(p).Session? <==> s != null
    ensures s != null ==> fresh(s) && error == None && s.View() == FromSnapshot(p).state
    ensures s == null ==> error == Some(FromSnapshot(p).error)
  {
    if p.id == "" {
      return null, Some(EmptyId);
    }
    if p.schema != "" && p.schema != CURRENT_SCHEMA {
      return null, Some(UnsupportedSchema(p.schema));
    }
    var chunks := [];
    for i := 0 to |p.chunks|
      invariant |chunks| == i
      invariant forall j | 0 <= j < i :: chunks[j] == ChunkFromSnapshot(p.chunks[j])
    {
      chunks := chunks + [ChunkFromSnapshot(p.chunks[i])];
    }
    assert chunks == ChunksFromSnapshot(p.chunks);
    s := new ExecutionSession.Restore(p, chunks);
    error := None;
  }

  /** NewExecutionSession. */
  method NewExecutionSession(id: string, actionName: string, input: Any) returns (s: ExecutionSession?)
    ensures s == null <==> NewSession(id, actionName, input) == None
    ensures s == null <==> id == "" || actionName == ""
    ensures s != null ==> fresh(s) && NewSession(id, actionName, input) == Some(s.View())
  {
    if id == "" || actionName == "" {
      return null;
    }
    s := new ExecutionSession(id, actionName, input);
  }
}
