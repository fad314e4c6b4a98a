/** The serialisable form of a session, and that a reload in the middle of a run cannot be noticed. */
module SnapshotModel {
  import opened Evidence
  import opened SessionModel

  const NANOS_PER_MS: int := 1_000_000

  /** timeToMs: UnixMilli floors; the zero time becomes 0. */
  function TimeToMs(t: Time): int {
    if t == ZERO_TIME then 0 else t / NANOS_PER_MS
  }

  function MsToTime(ms: int): Time {
    if ms == 0 then ZERO_TIME else ms * NANOS_PER_MS
  }

  /** A time that is not the zero time but falls into its millisecond. */
  predicate Collapses(t: Time) {
    ZERO_TIME < t < ZERO_TIME + NANOS_PER_MS
  }

  /** Persisting a time twice persists it as once, except in the first millisecond of year 1. */
  lemma MillisStable(t: Time)
    ensures TimeToMs(MsToTime(TimeToMs(t))) == TimeToMs(t) <==> !Collapses(t)
  {
  }

  datatype ChunkSnapshot = ChunkSnapshot(index: nat, kind: string, data: Any, contentType: string, timestamp: int)

  const CURRENT_SCHEMA := "1"

  datatype Snapshot = Snapshot(
    schema: string,
    id: string,
    actionName: string,
    input: Any,
    status: Status,
    requiresApproval: bool,
    capabilities: seq<string>,
    evidence: seq<Record>,
    chunks: seq<ChunkSnapshot>,
    result: Option<Result>,
    failure: Option<Failure>,
    decision: Option<Decision>)

  function ChunkToSnapshot(c: Chunk): ChunkSnapshot {
    ChunkSnapshot(c.index, c.kind, c.data, c.contentType, TimeToMs(c.at))
  }

  function ChunkFromSnapshot(c: ChunkSnapshot): Chunk {
    Chunk(c.index, c.kind, c.data, c.contentType, MsToTime(c.timestamp))
  }

  function ChunksToSnapshot(cs: seq<Chunk>): (r: seq<ChunkSnapshot>)
    ensures |r| == |cs| && forall i | 0 <= i < |cs| :: r[i] == ChunkToSnapshot(cs[i])
  {
    seq(|cs|, i requires 0 <= i < |cs| => ChunkToSnapshot(cs[i]))
  }

  function ChunksFromSnapshot(cs: seq<ChunkSnapshot>): (r: seq<Chunk>)
    ensures |r| == |cs| && forall i | 0 <= i < |cs| :: r[i] == ChunkFromSnapshot(cs[i])
  {
    seq(|cs|, i requires 0 <= i < |cs| => ChunkFromSnapshot(cs[i]))
  }

  /** ToSnapshot: the start time and the pending events are not part of it. */
  function ToSnapshot(s: State): Snapshot {
    Snapshot(CURRENT_SCHEMA, s.id, s.actionName, s.input, s.status, s.requiresApproval, s.capabilities,
             s.evidence, ChunksToSnapshot(s.chunks), s.result, s.failure, s.decision)
  }

  datatype LoadError = EmptyId | UnsupportedSchema(schema: string)

  datatype Loaded = Session(state: State) | Refused(error: LoadError)

  function FromSnapshot(p: Snapshot): Loaded {
    if p.id == "" then Refused(EmptyId)
    else if p.schema != "" && p.schema != CURRENT_SCHEMA then Refused(UnsupportedSchema(p.schema))
    else
      Session(State(p.id, p.actionName, p.input, p.status, p.requiresApproval, p.capabilities, p.evidence,
                    p.result, p.failure, p.decision, ZERO_TIME, ChunksFromSnapshot(p.chunks), []))
  }

  predicate TimesPersist(s: State) {
    forall i | 0 <= i < |s.chunks| :: !Collapses(s.chunks[i].at)
  }

  /** Reloading a snapshot and taking it again gives it back iff no chunk time collapses. */
  lemma SnapshotRoundTrip(s: State)
    requires s.id != ""
    ensures FromSnapshot(ToSnapshot(s)).Session?
    ensures ToSnapshot(FromSnapshot(ToSnapshot(s)).state) == ToSnapshot(s) <==> TimesPersist(s)
  {
    var p := ToSnapshot(s);
    var q := ToSnapshot(FromSnapshot(p).state);
    forall i | 0 <= i < |s.chunks| ensures q.chunks[i] == p.chunks[i] <==> !Collapses(s.chunks[i].at) {
      MillisStable(s.chunks[i].at);
    }
  }

  /** States that differ only in what a snapshot leaves out. */
  predicate Similar(s: State, t: State) {
    ToSnapshot(s) == ToSnapshot(t)
  }

  lemma SimilarChunks(s: State, t: State)
    requires Similar(s, t)
    ensures |s.chunks| == |t.chunks|
    ensures forall i | 0 <= i < |s.chunks| :: ChunkToSnapshot(s.chunks[i]) == ChunkToSnapshot(t.chunks[i])
  {
    assert ChunksToSnapshot(s.chunks) == ChunksToSnapshot(t.chunks);
    forall i | 0 <= i < |s.chunks| ensures ChunkToSnapshot(s.chunks[i]) == ChunkToSnapshot(t.chunks[i]) {
      assert ChunksToSnapshot(s.chunks)[i] == ChunksToSnapshot(t.chunks)[i];
    }
  }

  /** No operation can tell similar sessions apart, and none makes them dissimilar. */
  lemma ApplySimilar(h: Hasher, s: State, t: State, op: Op)
    requires Similar(s, t)
    ensures Apply(h, s, op).1 == Apply(h, t, op).1
    ensures Similar(Apply(h, s, op).0, Apply(h, t, op).0)
  {
    SimilarChunks(s, t);
    var s', t' := Apply(h, s, op).0, Apply(h, t, op).0;
    assert ChunksToSnapshot(s'.chunks) == ChunksToSnapshot(t'.chunks);
  }

  lemma {:induction false} RunSimilar(h: Hasher, s: State, t: State, ops: seq<Op>)
    requires Similar(s, t)
    ensures Answers(h, s, ops) == Answers(h, t, ops)
    ensures Similar(Run(h, s, ops), Run(h, t, ops))
    decreases |ops|
  {
    if ops != [] {
      ApplySimilar(h, s, t, ops[0]);
      RunSimilar(h, Apply(h, s, ops[0]).0, Apply(h, t, ops[0]).0, ops[1..]);
    }
  }

  /** Stopping a run anywhere, persisting, reloading and going on answers and ends as the run without a break. */
  lemma ReloadCommutes(h: Hasher, s: State, before: seq<Op>, after: seq<Op>)
    requires Inv(s) && TimesPersist(Run(h, s, before))
    ensures var stopped := ToSnapshot(Run(h, s, before));
            && FromSnapshot(stopped).Session?
            && ToSnapshot(Run(h, FromSnapshot(stopped).state, after)) == ToSnapshot(Run(h, s, before + after))
            && Answers(h, s, before + after) == Answers(h, s, before) + Answers(h, FromSnapshot(stopped).state, after)
  {
    var mid := Run(h, s, before);
    RunKeeps(h, s, before);
    SnapshotRoundTrip(mid);
    RunConcat(h, s, before, after);
    RunSimilar(h, mid, FromSnapshot(ToSnapshot(mid)).state, after);
  }

  /** Times that are stored as 0: the zero time and, because 0 stands for it, the first millisecond of 1970. */
  predicate StoredAsZero(t: Time) {
    t == ZERO_TIME || 0 <= t < 1_000_000
  }

  /**
   * What a reload keeps and what it loses, field by field: everything but the events not yet published, the
   * start time and what chunk times hold below the millisecond.
   */
  lemma ReloadKeeps(s: State)
    requires s.id != ""
    ensures FromSnapshot(ToSnapshot(s)).Session?
    ensures var t := FromSnapshot(ToSnapshot(s)).state;
            && t == s.(startedAt := ZERO_TIME, pending := [], chunks := t.chunks)
            && |t.chunks| == |s.chunks|
            && forall i | 0 <= i < |s.chunks| :: t.chunks[i] == s.chunks[i].(at :=
                 if StoredAsZero(s.chunks[i].at) then ZERO_TIME else s.chunks[i].at / 1_000_000 * 1_000_000)
  {
  }

  /** The same chunk, at the same time to the millisecond. */
  predicate SameChunk(c: Chunk, d: Chunk) {
    && c.index == d.index && c.kind == d.kind && c.data == d.data && c.contentType == d.contentType
    && (StoredAsZero(c.at) <==> StoredAsZero(d.at))
    && (!StoredAsZero(c.at) ==> c.at / 1_000_000 == d.at / 1_000_000)
  }

  /** A snapshot tells sessions apart iff they differ in a field it names. */
  lemma SameSnapshotIff(s: State, t: State)
    ensures ToSnapshot(s) == ToSnapshot(t) <==>
            && s.id == t.id && s.actionName == t.actionName && s.input == t.input && s.status == t.status
            && s.requiresApproval == t.requiresApproval && s.capabilities == t.capabilities
            && s.evidence == t.evidence && s.result == t.result && s.failure == t.failure
            && s.decision == t.decision
            && |s.chunks| == |t.chunks| && forall i | 0 <= i < |s.chunks| :: SameChunk(s.chunks[i], t.chunks[i])
  {
    if ToSnapshot(s) == ToSnapshot(t) {
      SimilarChunks(s, t);
    }
    if |s.chunks| == |t.chunks| && forall i | 0 <= i < |s.chunks| :: SameChunk(s.chunks[i], t.chunks[i]) {
      assert ChunksToSnapshot(s.chunks) == ChunksToSnapshot(t.chunks);
    }
  }

  /** Which snapshots load, and what is said of the others: the ID is looked at before the schema. */
  lemma LoadsIff(p: Snapshot)
    ensures FromSnapshot(p).Session? <==> p.id != "" && p.schema in {"", "1"}
    ensures FromSnapshot(p).Refused? ==>
              FromSnapshot(p).error == if p.id == "" then EmptyId else UnsupportedSchema(p.schema)
    ensures FromSnapshot(p).Session? ==>
              var q := ToSnapshot(FromSnapshot(p).state);
              && q == p.(schema := "1", chunks := q.chunks)
              && |q.chunks| == |p.chunks|
              && forall i | 0 <= i < |p.chunks| :: q.chunks[i] == p.chunks[i].(timestamp :=
                   if p.chunks[i].timestamp * 1_000_000 == ZERO_TIME then 0 else p.chunks[i].timestamp)
  {
  }
}
