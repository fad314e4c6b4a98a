/** Evidence records and their hash chain. */
module Evidence {

  /** A Go `any`: passed on without looking inside, except for the maps the kernel builds itself. */
  datatype Any = Nil | Opaque(id: int) | Fields(fields: map<string, Field>)

  datatype Field = Count(n: int) | Word(text: string)

  type Hash = string

  datatype Record = Record(
    kind: string,
    source: string,
    value: Any,
    timestamp: int,
    tokens: int,
    hash: Hash,
    previousHash: Hash)

  /** The content a hash covers: the record's own fields in canonical form, and the link. */
  datatype Payload = Payload(
    kind: string,
    source: string,
    canonical: string,
    timestamp: int,
    tokens: int,
    previousHash: Hash)

  datatype Canonical = Unencodable | Text(text: string)

  /** JSON encoding of one value and SHA-256 of an encoded payload, both taken from the platform. */
  datatype Hasher = Hasher(canonical: Any -> Canonical, digest: Payload -> Hash) {
    ghost predicate Lawful() {
      && (forall p :: digest(p) != "")
      && (forall p, q :: digest(p) == digest(q) ==> p == q)
    }
  }

  function PayloadOf(text: string, r: Record, previousHash: Hash): Payload {
    Payload(r.kind, r.source, text, r.timestamp, r.tokens, previousHash)
  }

  /** computeEvidenceHash: empty when the value cannot be encoded. */
  function ComputeHash(h: Hasher, r: Record, previousHash: Hash): Hash {
    match h.canonical(r.value)
    case Unencodable => ""
    case Text(text) => h.digest(PayloadOf(text, r, previousHash))
  }

  function PreviousOf(chain: seq<Record>, i: nat): Hash
    requires i <= |chain|
  {
    if i == 0 then "" else chain[i - 1].hash
  }

  /** AppendEvidence: whatever hashes the caller supplied are overwritten. */
  function Append(h: Hasher, chain: seq<Record>, r: Record): (chain': seq<Record>) {
    var previous := PreviousOf(chain, |chain|);
    chain + [r.(previousHash := previous, hash := ComputeHash(h, r, previous))]
  }

  /** The local condition at one position; records without a hash are tolerated. */
  predicate LinkOk(h: Hasher, chain: seq<Record>, i: nat)
    requires i < |chain|
  {
    var r := chain[i];
    r.hash == "" || (r.previousHash == PreviousOf(chain, i) && r.hash == ComputeHash(h, r, r.previousHash))
  }

  predicate Verified(h: Hasher, chain: seq<Record>) {
    forall i | 0 <= i < |chain| :: LinkOk(h, chain, i)
  }

  datatype Verdict = Intact | BrokenLink(index: nat) | BrokenHash(index: nat)

  /** Intact exactly when every position is fine; otherwise the least bad index and what is wrong there. */
  predicate VerdictOf(h: Hasher, chain: seq<Record>, v: Verdict) {
    match v
    case Intact => Verified(h, chain)
    case BrokenLink(i) => FirstBad(h, chain, i) && chain[i].previousHash != PreviousOf(chain, i)
    case BrokenHash(i) => FirstBad(h, chain, i) && chain[i].previousHash == PreviousOf(chain, i)
  }

  predicate FirstBad(h: Hasher, chain: seq<Record>, i: nat) {
    i < |chain| && !LinkOk(h, chain, i) && Verified(h, chain[..i])
  }

  /** VerifyEvidenceChain's loop. */
  method VerifyChain(h: Hasher, chain: seq<Record>) returns (v: Verdict)
    ensures VerdictOf(h, chain, v)
  {
    var previousHash := "";
    for i := 0 to |chain|
      invariant previousHash == PreviousOf(chain, i)
      invariant forall j | 0 <= j < i :: LinkOk(h, chain, j)
    {
      var r := chain[i];
      if r.hash == "" {
        previousHash := "";
        continue;
      }
      if r.previousHash != previousHash {
        PrefixVerified(h, chain, i);
        assert !LinkOk(h, chain, i);
        return BrokenLink(i);
      }
      var expected := ComputeHash(h, r.(hash := "", previousHash := ""), previousHash);
      if expected != r.hash {
        PrefixVerified(h, chain, i);
        assert !LinkOk(h, chain, i);
        return BrokenHash(i);
      }
      previousHash := r.hash;
    }
    return Intact;
  }

  lemma PrefixVerified(h: Hasher, chain: seq<Record>, n: nat)
    requires n <= |chain| && forall j | 0 <= j < n :: LinkOk(h, chain, j)
    ensures Verified(h, chain[..n])
  {
    forall j | 0 <= j < n ensures LinkOk(h, chain[..n], j) {
      assert LinkOk(h, chain, j);
    }
  }

  /** A chain that verifies still verifies after an append, legacy prefixes and unhashable values included. */
  lemma AppendKeepsVerified(h: Hasher, chain: seq<Record>, r: Record)
    requires Verified(h, chain)
    ensures Verified(h, Append(h, chain, r))
  {
    var chain' := Append(h, chain, r);
    forall i | 0 <= i < |chain'| ensures LinkOk(h, chain', i) {
      if i < |chain| {
        assert LinkOk(h, chain, i);
      }
    }
  }

  function AppendAll(h: Hasher, chain: seq<Record>, rs: seq<Record>): seq<Record>
    decreases |rs|
  {
    if rs == [] then chain else AppendAll(h, Append(h, chain, rs[0]), rs[1..])
  }

  lemma {:induction false} AppendAllKeepsVerified(h: Hasher, chain: seq<Record>, rs: seq<Record>)
    requires Verified(h, chain)
    ensures Verified(h, AppendAll(h, chain, rs))
    decreases |rs|
  {
    if rs != [] {
      AppendKeepsVerified(h, chain, rs[0]);
      AppendAllKeepsVerified(h, Append(h, chain, rs[0]), rs[1..]);
    }
  }

  // ---- what a verified chain pins down ----

  predicate FullyHashed(chain: seq<Record>) {
    forall i | 0 <= i < |chain| :: chain[i].hash != ""
  }

  /** Equal in everything a hash covers. */
  predicate SameContent(h: Hasher, a: Record, b: Record) {
    && a.kind == b.kind && a.source == b.source
    && a.timestamp == b.timestamp && a.tokens == b.tokens
    && h.canonical(a.value) == h.canonical(b.value)
  }

  lemma EqualHashes(h: Hasher, a: Record, p: Hash, b: Record, q: Hash)
    requires h.Lawful() && ComputeHash(h, a, p) == ComputeHash(h, b, q) != ""
    ensures SameContent(h, a, b) && p == q
  {
    var s := h.canonical(a.value).text;
    var t := h.canonical(b.value).text;
    assert h.digest(PayloadOf(s, a, p)) == h.digest(PayloadOf(t, b, q));
    assert PayloadOf(s, a, p) == PayloadOf(t, b, q);
  }

  /** The last hash of a fully hashed chain determines its length and the content of every record. */
  lemma {:induction false} LastHashDetermines(h: Hasher, a: seq<Record>, b: seq<Record>)
    requires h.Lawful() && Verified(h, a) && Verified(h, b) && FullyHashed(a) && FullyHashed(b)
    requires PreviousOf(a, |a|) == PreviousOf(b, |b|)
    ensures |a| == |b| && forall i | 0 <= i < |a| :: SameContent(h, a[i], b[i]) && a[i].hash == b[i].hash
    decreases |a|
  {
    if a != [] && b != [] {
      var m, n := |a| - 1, |b| - 1;
      assert LinkOk(h, a, m) && LinkOk(h, b, n);
      EqualHashes(h, a[m], a[m].previousHash, b[n], b[n].previousHash);
      PrefixVerified(h, a, m);
      PrefixVerified(h, b, n);
      LastHashDetermines(h, a[..m], b[..n]);
      forall i | 0 <= i < |a| ensures SameContent(h, a[i], b[i]) && a[i].hash == b[i].hash {
        if i < m {
          assert a[..m][i] == a[i] && b[..m][i] == b[i];
        }
      }
    }
  }

  /** What verification sees of a replaced record: its own link and the one that follows it. */
  lemma MutationSeenAt(h: Hasher, chain: seq<Record>, i: nat, r: Record)
    requires Verified(h, chain) && i < |chain|
    ensures var chain' := chain[i := r];
            Verified(h, chain') <==> LinkOk(h, chain', i) && (i + 1 < |chain| ==> LinkOk(h, chain', i + 1))
  {
    var chain' := chain[i := r];
    forall j | 0 <= j < |chain| && j != i && j != i + 1 ensures LinkOk(h, chain', j) {
      assert LinkOk(h, chain, j);
    }
  }

  /**
   * Altering a hashed record's content while leaving its hashes: reported, as a hash mismatch at exactly
   * that position, iff the canonical content really differs.
   */
  lemma TamperReported(h: Hasher, chain: seq<Record>, i: nat, r: Record, v: Verdict)
    requires h.Lawful() && Verified(h, chain) && i < |chain| && chain[i].hash != ""
    requires r.hash == chain[i].hash && r.previousHash == chain[i].previousHash
    requires VerdictOf(h, chain[i := r], v)
    ensures v == if SameContent(h, r, chain[i]) then Intact else BrokenHash(i)
  {
    TamperedAt(h, chain, i, r);
  }

  lemma TamperedAt(h: Hasher, chain: seq<Record>, i: nat, r: Record)
    requires h.Lawful() && Verified(h, chain) && i < |chain| && chain[i].hash != ""
    requires r.hash == chain[i].hash && r.previousHash == chain[i].previousHash
    ensures var chain' := chain[i := r];
            && (forall j | 0 <= j < |chain'| && j != i :: LinkOk(h, chain', j))
            && (LinkOk(h, chain', i) <==> SameContent(h, r, chain[i]))
            && r.previousHash == PreviousOf(chain', i)
  {
    var chain' := chain[i := r];
    assert LinkOk(h, chain, i);
    forall j | 0 <= j < |chain'| && j != i ensures LinkOk(h, chain', j) {
      assert LinkOk(h, chain, j);
    }
    if LinkOk(h, chain', i) {
      EqualHashes(h, r, r.previousHash, chain[i], r.previousHash);
    }
  }

  /**
   * Any replacement of a hashed record with a hashed successor, stored hashes included, goes unnoticed iff
   * it keeps the hash, the link and the content.
   */
  lemma MutationDetected(h: Hasher, chain: seq<Record>, i: nat, r: Record)
    requires h.Lawful() && Verified(h, chain) && i + 1 < |chain|
    requires chain[i].hash != "" && chain[i + 1].hash != ""
    ensures Verified(h, chain[i := r]) <==>
            r.hash == chain[i].hash && r.previousHash == chain[i].previousHash && SameContent(h, r, chain[i])
  {
    MutationSeenAt(h, chain, i, r);
    assert LinkOk(h, chain, i) && LinkOk(h, chain, i + 1);
    if Verified(h, chain[i := r]) {
      assert LinkOk(h, chain[i := r], i) && LinkOk(h, chain[i := r], i + 1);
      EqualHashes(h, r, r.previousHash, chain[i], chain[i].previousHash);
    }
    if r.hash == chain[i].hash && r.previousHash == chain[i].previousHash && SameContent(h, r, chain[i]) {
      TamperedAt(h, chain, i, r);
      assert LinkOk(h, chain[i := r], i) && LinkOk(h, chain[i := r], i + 1);
    }
  }

  /** The last record has no successor to hold it: it may be blanked, or replaced and rehashed, unnoticed. */
  lemma LastRecordMutation(h: Hasher, chain: seq<Record>, r: Record)
    requires Verified(h, chain) && chain != []
    ensures var n := |chain| - 1;
            Verified(h, chain[n := r]) <==> r.hash == "" || chain[n := r] == Append(h, chain[..n], r)
  {
    var n := |chain| - 1;
    MutationSeenAt(h, chain, n, r);
    assert PreviousOf(chain[n := r], n) == PreviousOf(chain[..n], n);
    assert chain[n := r] == chain[..n] + [r];
    var appended := Append(h, chain[..n], r);
    assert appended[n] == r.(previousHash := appended[n].previousHash, hash := appended[n].hash);
    if LinkOk(h, chain[n := r], n) && r.hash != "" {
      assert appended == chain[..n] + [r];
    }
    if chain[n := r] == appended {
      assert r == appended[n];
    }
  }

  // ---- edits of any extent ----

  lemma {:induction false} AppendAllShape(h: Hasher, chain: seq<Record>, rs: seq<Record>)
    ensures var all := AppendAll(h, chain, rs);
            && |all| == |chain| + |rs| && chain <= all
            && forall k | 0 <= k < |rs| :: SameContent(h, all[|chain| + k], rs[k])
    decreases |rs|
  {
    if rs != [] {
      var chain' := Append(h, chain, rs[0]);
      AppendAllShape(h, chain', rs[1..]);
      var all := AppendAll(h, chain, rs);
      forall k | 0 <= k < |rs| ensures SameContent(h, all[|chain| + k], rs[k]) {
        if k == 0 {
          assert all[|chain|] == chain'[|chain|];
        } else {
          assert rs[k] == rs[1..][k - 1];
        }
      }
    }
  }

  /** An appended record has a hash iff its value can be encoded, whatever hashes it came with. */
  lemma {:induction false} AppendedAreHashed(h: Hasher, chain: seq<Record>, rs: seq<Record>)
    requires h.Lawful()
    ensures var all := AppendAll(h, chain, rs);
            && |all| == |chain| + |rs|
            && forall k | 0 <= k < |rs| ::
                 all[|chain| + k].hash != "" <==> h.canonical(rs[k].value) != Unencodable
    decreases |rs|
  {
    if rs != [] {
      var chain' := Append(h, chain, rs[0]);
      AppendedAreHashed(h, chain', rs[1..]);
      AppendAllShape(h, chain', rs[1..]);
      var all := AppendAll(h, chain, rs);
      forall k | 0 <= k < |rs|
        ensures all[|chain| + k].hash != "" <==> h.canonical(rs[k].value) != Unencodable
      {
        if k == 0 {
          assert all[|chain|] == chain'[|chain|];
        } else {
          assert rs[k] == rs[1..][k - 1] && all[|chain| + k] == all[|chain'| + (k - 1)];
        }
      }
    }
  }

  predicate HashedFrom(chain: seq<Record>, i: nat, j: nat) {
    forall k | i <= k <= j && k < |chain| :: chain[k].hash != ""
  }

  /** Verified chains that agree in the hash stored at j agree in everything back to the last unhashed record. */
  lemma {:induction false} AgreeBackTo(h: Hasher, a: seq<Record>, b: seq<Record>, i: nat, j: nat)
    requires h.Lawful() && Verified(h, a) && i <= j < |a| && j < |b| && HashedFrom(a, i, j)
    requires forall k | 0 <= k <= j :: LinkOk(h, b, k)
    requires a[j].hash == b[j].hash
    ensures forall k | i <= k <= j :: SameContent(h, a[k], b[k]) && a[k].hash == b[k].hash
  {
    assert LinkOk(h, a, j) && LinkOk(h, b, j);
    EqualHashes(h, a[j], a[j].previousHash, b[j], b[j].previousHash);
    if j > i {
      AgreeBackTo(h, a, b, i, j - 1);
    }
  }

  /** A chain of length n that keeps a's records outside `edited`, still verifies, and holds r's content at i. */
  ghost predicate Forgery(
    h: Hasher, a: seq<Record>, b: seq<Record>, n: nat, edited: set<nat>, i: nat, r: Record)
    requires i < n
  {
    && |b| == n
    && (forall k: nat :: k < n && k < |a| && k !in edited ==> b[k] == a[k])
    && Verified(h, b) && SameContent(h, b[i], r)
  }

  ghost predicate Forgeable(h: Hasher, a: seq<Record>, n: nat, edited: set<nat>, i: nat, r: Record)
    requires i < n
  {
    exists b :: Forgery(h, a, b, n, edited, i, r)
  }

  /** The end of the hashed stretch at i: the next record without a hash, or the end of the chain. */
  function StretchEnd(chain: seq<Record>, i: nat): (e: nat)
    requires i <= |chain|
    ensures i <= e <= |chain| && (e < |chain| ==> chain[e].hash == "")
    ensures forall k | i <= k < e :: chain[k].hash != ""
    decreases |chain| - i
  {
    if i == |chain| || chain[i].hash == "" then i else StretchEnd(chain, i + 1)
  }

  /** One record kept in the stretch from i on holds the content at i in place. */
  lemma KeptAfter(
    h: Hasher, a: seq<Record>, b: seq<Record>, n: nat, edited: set<nat>, i: nat, r: Record, k: nat)
    requires h.Lawful() && Verified(h, a) && i <= k < |a| && k < n && k !in edited
    requires k == i || k < StretchEnd(a, i)
    requires Forgery(h, a, b, n, edited, i, r)
    ensures SameContent(h, a[i], r)
  {
    if k > i {
      AgreeBackTo(h, a, b, i, k);
    }
    assert SameContent(h, a[i], b[i]);
  }

  lemma BlankKeeps(h: Hasher, chain: seq<Record>, i: nat, r: Record)
    requires Verified(h, chain) && i < |chain| && chain[i].hash == ""
    ensures Verified(h, chain[i := r.(hash := "", previousHash := "")])
  {
    MutationSeenAt(h, chain, i, r.(hash := "", previousHash := ""));
    assert i + 1 < |chain| ==> LinkOk(h, chain, i + 1);
  }

  /** The records from i up to e with new content at i, hashed anew. */
  lemma Rewrite(h: Hasher, a: seq<Record>, i: nat, e: nat, r: Record) returns (b: seq<Record>)
    requires Verified(h, a) && i < e <= |a|
    ensures |b| == e && Verified(h, b) && b[..i] == a[..i] && SameContent(h, b[i], r)
  {
    var rs := [r] + a[i + 1..e];
    b := AppendAll(h, a[..i], rs);
    PrefixVerified(h, a, i);
    AppendAllKeepsVerified(h, a[..i], rs);
    AppendAllShape(h, a[..i], rs);
    assert SameContent(h, b[|a[..i]| + 0], rs[0]);
  }

  /** Records without a hash may follow anything, and anything that followed one may follow another. */
  lemma Resume(h: Hasher, b: seq<Record>, a: seq<Record>, e: nat)
    requires Verified(h, b) && Verified(h, a) && |b| == e <= |a| && (e < |a| ==> a[e].hash == "")
    ensures Verified(h, b + a[e..])
  {
    var all := b + a[e..];
    forall k | 0 <= k < |all| ensures LinkOk(h, all, k) {
      assert k < e ==> LinkOk(h, b, k);
      assert k < |a| ==> LinkOk(h, a, k);
    }
  }

  /** Records without a hash, as many as are asked for. */
  function Blanks(r: Record, n: nat): (rs: seq<Record>)
    ensures |rs| == n && forall k | 0 <= k < n :: rs[k].hash == ""
  {
    seq(n, _ => r.(hash := ""))
  }

  lemma BlanksKeep(h: Hasher, b: seq<Record>, r: Record, n: nat)
    requires Verified(h, b)
    ensures Verified(h, b + Blanks(r, n))
  {
    var all := b + Blanks(r, n);
    forall k | 0 <= k < |all| ensures LinkOk(h, all, k) {
      assert k < |b| ==> LinkOk(h, b, k);
    }
  }

  /** The edit itself, on a chain no longer than what is asked for. */
  lemma Forge(h: Hasher, a: seq<Record>, edited: set<nat>, i: nat, r: Record) returns (b: seq<Record>)
    requires Verified(h, a) && i < |a| && i in edited
    requires forall k: nat | i <= k < StretchEnd(a, i) :: k in edited
    ensures Forgery(h, a, b, |a|, edited, i, r)
  {
    if a[i].hash == "" {
      b := a[i := r.(hash := "", previousHash := "")];
      BlankKeeps(h, a, i, r);
    } else {
      var e := StretchEnd(a, i);
      var anew := Rewrite(h, a, i, e, r);
      Resume(h, anew, a, e);
      b := anew + a[e..];
      forall k: nat | k < |a| && k !in edited ensures b[k] == a[k] {
        assert k < i ==> anew[..i][k] == a[..i][k];
      }
    }
  }

  lemma {:induction false} StretchEndOfPrefix(a: seq<Record>, n: nat, i: nat)
    requires i <= n <= |a|
    ensures StretchEnd(a[..n], i) == if StretchEnd(a, i) < n then StretchEnd(a, i) else n
    decreases n - i
  {
    if i < n && a[i].hash != "" {
      StretchEndOfPrefix(a, n, i + 1);
    }
  }

  /** The edit on a chain of any length n: shorter by dropped records, or longer by added ones. */
  lemma ForgeTo(h: Hasher, a: seq<Record>, n: nat, edited: set<nat>, i: nat, r: Record) returns (b: seq<Record>)
    requires Verified(h, a) && i < |a| && i < n && i in edited
    requires forall k: nat | i <= k < StretchEnd(a, i) && k < n :: k in edited
    ensures Forgery(h, a, b, n, edited, i, r)
  {
    if n <= |a| {
      PrefixVerified(h, a, n);
      StretchEndOfPrefix(a, n, i);
      b := Forge(h, a[..n], edited, i, r);
    } else {
      var anew := Forge(h, a, edited, i, r);
      BlanksKeep(h, anew, r, n - |a|);
      b := anew + Blanks(r, n - |a|);
    }
  }

  /**
   * Someone who may rewrite the records at a set of positions, stored hashes included, and drop or add records
   * at the end, can change the content at i and leave n records that verify iff the set holds i and every
   * position after it that is kept, up to the next record without a hash.
   */
  lemma ForgeryNeedsTheRest(h: Hasher, a: seq<Record>, n: nat, edited: set<nat>, i: nat, r: Record)
    requires h.Lawful() && Verified(h, a) && i < |a| && i < n && !SameContent(h, a[i], r)
    ensures Forgeable(h, a, n, edited, i, r)
       <==> i in edited && forall k: nat :: i <= k < StretchEnd(a, i) && k < n ==> k in edited
  {
    if Forgeable(h, a, n, edited, i, r) {
      var b :| Forgery(h, a, b, n, edited, i, r);
      forall k: nat | k < n && (k == i || i <= k < StretchEnd(a, i)) ensures k in edited {
        if k !in edited {
          KeptAfter(h, a, b, n, edited, i, r, k);
        }
      }
    }
    if i in edited && forall k: nat :: i <= k < StretchEnd(a, i) && k < n ==> k in edited {
      var b := ForgeTo(h, a, n, edited, i, r);
    }
  }

  /** So rewriting one record and dropping what follows it is never noticed. */
  lemma CutAndRewritten(h: Hasher, a: seq<Record>, i: nat, r: Record)
    requires h.Lawful() && Verified(h, a) && i < |a| && !SameContent(h, a[i], r)
    ensures Forgeable(h, a, i + 1, {i}, i, r)
  {
    ForgeryNeedsTheRest(h, a, i + 1, {i}, i, r);
  }

  /** Dropping records at the end is never noticed. */
  lemma TruncationUnseen(h: Hasher, chain: seq<Record>, n: nat)
    requires Verified(h, chain) && n <= |chain|
    ensures Verified(h, chain[..n])
  {
    PrefixVerified(h, chain, n);
  }

  /**
   * An edit whose hashes are consistent up to k, before which some content changed and from which on nothing
   * did, is reported as a broken link at k: not where the edit was, but at the first record left alone.
   */
  lemma ReportedAfterTheEdit(h: Hasher, a: seq<Record>, b: seq<Record>, i: nat, k: nat, v: Verdict)
    requires h.Lawful() && Verified(h, a) && |b| == |a| && HashedFrom(a, i, k)
    requires i < k < |a| && Verified(h, b[..k]) && !SameContent(h, a[i], b[i])
    requires forall j | k <= j < |a| :: b[j] == a[j]
    requires VerdictOf(h, b, v)
    ensures v == BrokenLink(k)
  {
    forall j | 0 <= j < k ensures LinkOk(h, b, j) {
      assert LinkOk(h, b[..k], j);
    }
    if a[k - 1].hash == b[k - 1].hash {
      AgreeBackTo(h, a, b, i, k - 1);
      assert false;
    }
    assert LinkOk(h, a, k);
    assert !LinkOk(h, b, k) && b[k].previousHash != PreviousOf(b, k);
    if !v.Intact? {
      FirstBadNotAfter(h, b, v.index, k);
    }
  }

  lemma FirstBadNotAfter(h: Hasher, chain: seq<Record>, m: nat, k: nat)
    requires FirstBad(h, chain, m) && k < |chain| && !LinkOk(h, chain, k)
    ensures m <= k
  {
    forall j | 0 <= j < m ensures LinkOk(h, chain, j) {
      assert LinkOk(h, chain[..m], j);
    }
  }

  /** Replacing one record and hashing it anew is reported at the next one iff its content really differs. */
  lemma RehashReportedNext(h: Hasher, a: seq<Record>, i: nat, r: Record, v: Verdict)
    requires h.Lawful() && Verified(h, a) && i + 1 < |a| && HashedFrom(a, i, i + 1)
    requires VerdictOf(h, a[i := Append(h, a[..i], r)[i]], v)
    ensures v == if SameContent(h, a[i], r) then Intact else BrokenLink(i + 1)
  {
    var b := a[i := Append(h, a[..i], r)[i]];
    assert LinkOk(h, a, i);
    if SameContent(h, a[i], r) {
      assert PreviousOf(a[..i], i) == PreviousOf(a, i);
      TamperedAt(h, a, i, b[i]);
    } else {
      PrefixVerified(h, a, i);
      AppendKeepsVerified(h, a[..i], r);
      assert b[..i + 1] == Append(h, a[..i], r);
      ReportedAfterTheEdit(h, a, b, i, i + 1, v);
    }
  }
}
