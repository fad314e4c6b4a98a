/**
 * The single calls a registration makes on the repositories and the executor registries, one after another,
 * and what an Execute beside it can see after any of them.
 */
module Calls {
  import opened CompositionModel

  type Executors = map<string, int>

  /** Actions and capabilities are stored and looked up alike. */
  datatype Side = Actions | Capabilities

  /** Everything a registration writes to, as it stands at one moment. */
  datatype Scene = Scene(tables: Tables, actionExecutors: Executors, capabilityExecutors: Executors)

  datatype Call =
    | AddExecutor(side: Side, ref: string, executor: int)
    | Save(side: Side, definition: Definition)
    | SavePlugin(contribution: Contribution)
    | Delete(side: Side, name: string)
    | DeletePlugin(id: string)
    | DropExecutor(side: Side, ref: string)

  function Table(side: Side, t: Tables): map<string, Definition> {
    if side.Actions? then t.actions else t.capabilities
  }

  function Registry(side: Side, w: Scene): Executors {
    if side.Actions? then w.actionExecutors else w.capabilityExecutors
  }

  function WithTable(side: Side, w: Scene, table: map<string, Definition>): (w': Scene)
    ensures Table(side, w'.tables) == table
  {
    if side.Actions? then w.(tables := w.tables.(actions := table))
    else w.(tables := w.tables.(capabilities := table))
  }

  function WithRegistry(side: Side, w: Scene, executors: Executors): (w': Scene)
    ensures Registry(side, w') == executors
  {
    if side.Actions? then w.(actionExecutors := executors) else w.(capabilityExecutors := executors)
  }

  function Do(w: Scene, call: Call): Scene {
    match call
    case AddExecutor(side, ref, executor) => WithRegistry(side, w, Registry(side, w)[ref := executor])
    case Save(side, d) => WithTable(side, w, Table(side, w.tables)[d.name := d])
    case SavePlugin(c) => w.(tables := w.tables.(plugins := w.tables.plugins[c.id := c]))
    case Delete(side, name) => WithTable(side, w, Table(side, w.tables) - {name})
    case DeletePlugin(id) => w.(tables := w.tables.(plugins := w.tables.plugins - {id}))
    case DropExecutor(side, ref) => WithRegistry(side, w, Registry(side, w) - {ref})
  }

  function DoAll(w: Scene, calls: seq<Call>): Scene {
    if calls == [] then w else Do(DoAll(w, calls[..|calls| - 1]), calls[|calls| - 1])
  }

  lemma {:induction false} DoAllConcat(w: Scene, a: seq<Call>, b: seq<Call>)
    ensures DoAll(w, a + b) == DoAll(DoAll(w, a), b)
  {
    if b == [] {
      assert a + b == a;
    } else {
      var n := |b| - 1;
      assert (a + b)[..|a + b| - 1] == a + b[..n];
      DoAllConcat(w, a, b[..n]);
    }
  }

  /** The ghost record of the calls made so far and of the scene they have led to. */
  class Journal {
    ghost var scene: Scene
    ghost var calls: seq<Call>

    constructor (ghost scene: Scene)
      ensures this.scene == scene && calls == []
    {
      this.scene, calls := scene, [];
    }

    /** Exactly these calls were made since the journal read `scene0` and `calls0`. */
    ghost predicate Since(scene0: Scene, calls0: seq<Call>, made: seq<Call>)
      reads this
    {
      calls == calls0 + made && scene == DoAll(scene0, made)
    }

    ghost method Note(call: Call)
      modifies this
      ensures scene == Do(old(scene), call) && calls == old(calls) + [call]
      ensures Since(old(scene), old(calls), [call])
    {
      scene, calls := Do(scene, call), calls + [call];
      assert [call][..0] == [];
      assert DoAll(old(scene), []) == old(scene);
    }
  }

  /** Calls made in two stretches. */
  lemma SinceThen(j: Journal, scene0: Scene, calls0: seq<Call>, a: seq<Call>, b: seq<Call>)
    requires j.Since(DoAll(scene0, a), calls0 + a, b)
    ensures j.Since(scene0, calls0, a + b)
  {
    hide DoAll;
    DoAllConcat(scene0, a, b);
  }

  lemma SinceNothing(j: Journal)
    ensures j.Since(j.scene, j.calls, [])
  {
  }

  // ---- the calls of a registration ----

  function Saves(side: Side, ds: seq<Definition>): (calls: seq<Call>)
    ensures |calls| == |ds| && forall i | 0 <= i < |ds| :: calls[i] == Save(side, ds[i])
  {
    seq(|ds|, i requires 0 <= i < |ds| => Save(side, ds[i]))
  }

  function Deletes(side: Side, ds: seq<Definition>): (calls: seq<Call>)
    ensures |calls| == |ds| && forall i | 0 <= i < |ds| :: calls[i] == Delete(side, ds[i].name)
  {
    seq(|ds|, i requires 0 <= i < |ds| => Delete(side, ds[i].name))
  }

  function Adds(side: Side, refs: seq<string>, more: Executors): (calls: seq<Call>)
    requires forall r | r in refs :: r in more
    ensures |calls| == |refs| && forall i | 0 <= i < |refs| :: calls[i] == AddExecutor(side, refs[i], more[refs[i]])
  {
    seq(|refs|, i requires 0 <= i < |refs| => AddExecutor(side, refs[i], more[refs[i]]))
  }

  function Drops(side: Side, refs: seq<string>): (calls: seq<Call>)
    ensures |calls| == |refs| && forall i | 0 <= i < |refs| :: calls[i] == DropExecutor(side, refs[i])
  {
    seq(|refs|, i requires 0 <= i < |refs| => DropExecutor(side, refs[i]))
  }

  /** The rollback closure: what was saved, deleted. */
  function Undoing(savedActions: seq<Definition>, savedCapabilities: seq<Definition>): seq<Call> {
    Deletes(Actions, savedActions) + Deletes(Capabilities, savedCapabilities)
  }

  /** The saves up to the first refused one, and then the rollback; a refused save changes nothing. */
  function SavingCalls(c: Contribution, faults: Faults): seq<Call> {
    var a, k := FirstIn(faults.actions, c.actions), FirstIn(faults.capabilities, c.capabilities);
    if a < |c.actions| then Saves(Actions, c.actions[..a]) + Undoing(c.actions[..a], [])
    else
      Saves(Actions, c.actions)
      + if k < |c.capabilities| then Saves(Capabilities, c.capabilities[..k]) + Undoing(c.actions, c.capabilities[..k])
        else
          Saves(Capabilities, c.capabilities)
          + if faults.plugin then Undoing(c.actions, c.capabilities) else [SavePlugin(c)]
  }

  /** RegisterContribution: nothing is written before conflicts and bindings are checked. */
  function ContributionCalls(t: Tables, c: Contribution, active: bool, faults: Faults): seq<Call> {
    if Conflict(t, c).Refused? || Activation(c, active).Refused? then [] else SavingCalls(c, faults)
  }

  /** A bundle as a value. */
  datatype Parcel = Parcel(content: Contribution, actionExecutors: Executors, capabilityExecutors: Executors)

  function Packed(side: Side, p: Parcel): Executors {
    if side.Actions? then p.actionExecutors else p.capabilityExecutors
  }

  function Definitions(side: Side, c: Contribution): seq<Definition> {
    if side.Actions? then c.actions else c.capabilities
  }

  /** Every non-empty reference has an executor. */
  predicate Paired(ds: seq<Definition>, executors: Executors) {
    forall i :: 0 <= i < |ds| ==> ds[i].ref == "" || ds[i].ref in executors
  }

  /** What NewPluginBundle guarantees. */
  predicate Complete(p: Parcel) {
    && WellFormed(p.content)
    && Paired(p.content.actions, p.actionExecutors) && Paired(p.content.capabilities, p.capabilityExecutors)
  }

  /** An order in which a map is walked: each key once. */
  ghost predicate Walk(refs: seq<string>, keys: set<string>) {
    && (forall r :: r in refs <==> r in keys)
    && forall i, j :: 0 <= i < j < |refs| ==> refs[i] != refs[j]
  }

  /** The executors of both sides, actions first. */
  ghost function PutCalls(p: Parcel, actionRefs: seq<string>, capabilityRefs: seq<string>): seq<Call>
    requires Walk(actionRefs, p.actionExecutors.Keys) && Walk(capabilityRefs, p.capabilityExecutors.Keys)
  {
    Adds(Actions, actionRefs, p.actionExecutors) + Adds(Capabilities, capabilityRefs, p.capabilityExecutors)
  }

  /** RegisterBundle: executors in, the contribution, and the executors out again when it is refused. */
  ghost function BundleCalls(
    t: Tables, p: Parcel, active: bool, faults: Faults, actionRefs: seq<string>, capabilityRefs: seq<string>): seq<Call>
    requires Walk(actionRefs, p.actionExecutors.Keys) && Walk(capabilityRefs, p.capabilityExecutors.Keys)
  {
    PutCalls(p, actionRefs, capabilityRefs)
    + ContributionCalls(t, p.content, active, faults)
    + if Judge(t, p.content, active, faults).Accepted? then []
      else Drops(Actions, actionRefs) + Drops(Capabilities, capabilityRefs)
  }

  // ---- what lists of calls come to ----

  lemma {:induction false} SavesEffect(w: Scene, side: Side, ds: seq<Definition>)
    ensures DoAll(w, Saves(side, ds)) == WithTable(side, w, SaveAll(Table(side, w.tables), ds))
  {
    hide SaveAll;
    SaveAllSnoc(Table(side, w.tables), ds);
    if ds != [] {
      var n := |ds| - 1;
      SavesEffect(w, side, ds[..n]);
      assert Saves(side, ds)[..n] == Saves(side, ds[..n]);
    }
  }

  lemma SaveAllSnoc(t: map<string, Definition>, ds: seq<Definition>)
    ensures SaveAll(t, ds) ==
            if ds == [] then t else SaveAll(t, ds[..|ds| - 1])[ds[|ds| - 1].name := ds[|ds| - 1]]
  {
  }

  lemma {:induction false} DeletesEffect(w: Scene, side: Side, ds: seq<Definition>)
    ensures DoAll(w, Deletes(side, ds)) == WithTable(side, w, DeleteAll(Table(side, w.tables), ds))
  {
    hide DeleteAll;
    DeleteAllSnoc(Table(side, w.tables), ds);
    if ds != [] {
      var n := |ds| - 1;
      DeletesEffect(w, side, ds[..n]);
      assert Deletes(side, ds)[..n] == Deletes(side, ds[..n]);
    }
  }

  lemma DeleteAllSnoc(t: map<string, Definition>, ds: seq<Definition>)
    ensures DeleteAll(t, ds) == if ds == [] then t else DeleteAll(t, ds[..|ds| - 1]) - {ds[|ds| - 1].name}
  {
    if ds != [] {
      NamedSnoc(ds);
    }
  }

  function Part(refs: seq<string>, more: Executors): Executors
    requires forall r | r in refs :: r in more
  {
    map r | r in refs :: more[r]
  }

  lemma PartSnoc(base: Executors, refs: seq<string>, more: Executors)
    requires refs != [] && forall r | r in refs :: r in more
    ensures forall r | r in refs[..|refs| - 1] :: r in more
    ensures base + Part(refs, more)
         == (base + Part(refs[..|refs| - 1], more))[refs[|refs| - 1] := more[refs[|refs| - 1]]]
  {
    var n := |refs| - 1;
    assert refs == refs[..n] + [refs[n]];
    assert forall r | r in refs[..n] :: r in refs;
  }

  lemma {:induction false} AddsEffect(w: Scene, side: Side, refs: seq<string>, more: Executors)
    requires forall r | r in refs :: r in more
    ensures DoAll(w, Adds(side, refs, more)) == WithRegistry(side, w, Registry(side, w) + Part(refs, more))
  {
    hide Part;
    if refs == [] {
      NoPart(Registry(side, w), more);
    } else {
      var n := |refs| - 1;
      PartSnoc(Registry(side, w), refs, more);
      AddsEffect(w, side, refs[..n], more);
      assert Adds(side, refs, more)[..n] == Adds(side, refs[..n], more);
    }
  }

  lemma NoPart(base: Executors, more: Executors)
    ensures base + Part([], more) == base
  {
  }

  lemma {:induction false} DropsEffect(w: Scene, side: Side, refs: seq<string>)
    ensures DoAll(w, Drops(side, refs)) == WithRegistry(side, w, Registry(side, w) - (set r | r in refs))
  {
    if refs == [] {
      assert Registry(side, w) - (set r | r in refs) == Registry(side, w);
    } else {
      var n := |refs| - 1;
      DropsEffect(w, side, refs[..n]);
      assert Drops(side, refs)[..n] == Drops(side, refs[..n]);
      assert refs == refs[..n] + [refs[n]];
      assert Registry(side, w) - (set r | r in refs[..n]) - {refs[n]} == Registry(side, w) - (set r | r in refs);
    }
  }

  /** Saving fresh names and rolling them back changes nothing. */
  lemma SavedAndUndone(w: Scene, saved: seq<Definition>, savedToo: seq<Definition>)
    requires Free(w.tables.actions, saved) && Free(w.tables.capabilities, savedToo)
    ensures DoAll(w, Saves(Actions, saved) + (Saves(Capabilities, savedToo) + Undoing(saved, savedToo))) == w
  {
    hide SaveAll, DeleteAll, Free;
    var w1 := DoAll(w, Saves(Actions, saved));
    var w2 := DoAll(w1, Saves(Capabilities, savedToo));
    var w3 := DoAll(w2, Deletes(Actions, saved));
    SavesEffect(w, Actions, saved);
    SavesEffect(w1, Capabilities, savedToo);
    DeletesEffect(w2, Actions, saved);
    DeletesEffect(w3, Capabilities, savedToo);
    SaveThenDelete(w.tables.actions, saved);
    SaveThenDelete(w.tables.capabilities, savedToo);
    DoAllConcat(w, Saves(Actions, saved), Saves(Capabilities, savedToo) + Undoing(saved, savedToo));
    DoAllConcat(w1, Saves(Capabilities, savedToo), Undoing(saved, savedToo));
    DoAllConcat(w2, Deletes(Actions, saved), Deletes(Capabilities, savedToo));
  }

  lemma NoSaves(a: seq<Call>)
    ensures Saves(Capabilities, []) + a == a
  {
  }

  /** The calls of a registration add the contribution when it is accepted, and otherwise come to nothing. */
  lemma ContributionEffect(w: Scene, c: Contribution, active: bool, faults: Faults)
    requires WellFormed(c)
    ensures DoAll(w, ContributionCalls(w.tables, c, active, faults)) ==
              if Judge(w.tables, c, active, faults).Accepted? then w.(tables := Added(w.tables, c)) else w
  {
    if Conflict(w.tables, c).Accepted? && Activation(c, active).Accepted? {
      SavingEffect(w, c, faults);
    }
  }

  lemma SavingEffect(w: Scene, c: Contribution, faults: Faults)
    requires WellFormed(c) && Conflict(w.tables, c).Accepted?
    ensures DoAll(w, SavingCalls(c, faults)) ==
              if Saving(c, faults).Accepted? then w.(tables := Added(w.tables, c)) else w
  {
    hide SaveAll, DeleteAll, Undoing;
    var a, k := FirstIn(faults.actions, c.actions), FirstIn(faults.capabilities, c.capabilities);
    if a < |c.actions| {
      SavedAndUndone(w, c.actions[..a], []);
      NoSaves(Undoing(c.actions[..a], []));
    } else if k < |c.capabilities| {
      SavedAndUndone(w, c.actions, c.capabilities[..k]);
    } else if faults.plugin {
      SavedAndUndone(w, c.actions, c.capabilities);
    } else {
      AllSaved(w, c);
    }
  }

  lemma AllSaved(w: Scene, c: Contribution)
    ensures DoAll(w, Saves(Actions, c.actions) + (Saves(Capabilities, c.capabilities) + [SavePlugin(c)]))
         == w.(tables := Added(w.tables, c))
  {
    hide SaveAll;
    var w1 := DoAll(w, Saves(Actions, c.actions));
    var w2 := DoAll(w1, Saves(Capabilities, c.capabilities));
    SavesEffect(w, Actions, c.actions);
    SavesEffect(w1, Capabilities, c.capabilities);
    DoAllConcat(w, Saves(Actions, c.actions), Saves(Capabilities, c.capabilities) + [SavePlugin(c)]);
    DoAllConcat(w1, Saves(Capabilities, c.capabilities), [SavePlugin(c)]);
    OneCall(w2, SavePlugin(c));
  }

  lemma OneCall(w: Scene, call: Call)
    ensures DoAll(w, [call]) == Do(w, call)
  {
    assert [call][..0] == [];
    assert DoAll(w, []) == w;
  }

  lemma WalkedIn(refs: seq<string>, more: Executors)
    requires Walk(refs, more.Keys)
    ensures forall r | r in refs :: r in more
  {
  }

  lemma WalkedAll(refs: seq<string>, more: Executors, base: Executors)
    requires Walk(refs, more.Keys)
    ensures base + Part(refs, more) == base + more
    ensures (set r | r in refs) == more.Keys
    ensures (base + more) - more.Keys == base - more.Keys
  {
  }

  /** After the executors went in. */
  lemma AddedExecutors(w: Scene, p: Parcel, actionRefs: seq<string>, capabilityRefs: seq<string>)
    requires Walk(actionRefs, p.actionExecutors.Keys) && Walk(capabilityRefs, p.capabilityExecutors.Keys)
    ensures DoAll(w, PutCalls(p, actionRefs, capabilityRefs))
         == Scene(w.tables, w.actionExecutors + p.actionExecutors, w.capabilityExecutors + p.capabilityExecutors)
  {
    hide Part;
    var w1 := DoAll(w, Adds(Actions, actionRefs, p.actionExecutors));
    AddsEffect(w, Actions, actionRefs, p.actionExecutors);
    AddsEffect(w1, Capabilities, capabilityRefs, p.capabilityExecutors);
    WalkedAll(actionRefs, p.actionExecutors, w.actionExecutors);
    WalkedAll(capabilityRefs, p.capabilityExecutors, w.capabilityExecutors);
    DoAllConcat(w, Adds(Actions, actionRefs, p.actionExecutors),
                Adds(Capabilities, capabilityRefs, p.capabilityExecutors));
  }

  /** After the executors went out again. */
  lemma DroppedExecutors(w: Scene, p: Parcel, actionRefs: seq<string>, capabilityRefs: seq<string>)
    requires Walk(actionRefs, p.actionExecutors.Keys) && Walk(capabilityRefs, p.capabilityExecutors.Keys)
    ensures DoAll(w, Drops(Actions, actionRefs) + Drops(Capabilities, capabilityRefs))
         == Scene(w.tables, w.actionExecutors - p.actionExecutors.Keys,
                  w.capabilityExecutors - p.capabilityExecutors.Keys)
  {
    var w1 := DoAll(w, Drops(Actions, actionRefs));
    DropsEffect(w, Actions, actionRefs);
    DropsEffect(w1, Capabilities, capabilityRefs);
    WalkedAll(actionRefs, p.actionExecutors, w.actionExecutors);
    WalkedAll(capabilityRefs, p.capabilityExecutors, w.capabilityExecutors);
    DoAllConcat(w, Drops(Actions, actionRefs), Drops(Capabilities, capabilityRefs));
  }

  /** Where a bundle registration ends. */
  function BundleOutcome(w: Scene, p: Parcel, active: bool, faults: Faults): Scene {
    if Judge(w.tables, p.content, active, faults).Accepted? then
      Scene(Added(w.tables, p.content), w.actionExecutors + p.actionExecutors,
            w.capabilityExecutors + p.capabilityExecutors)
    else
      Scene(w.tables, w.actionExecutors - p.actionExecutors.Keys, w.capabilityExecutors - p.capabilityExecutors.Keys)
  }

  lemma BundleEffect(w: Scene, p: Parcel, active: bool, faults: Faults,
                     actionRefs: seq<string>, capabilityRefs: seq<string>)
    requires WellFormed(p.content)
    requires Walk(actionRefs, p.actionExecutors.Keys) && Walk(capabilityRefs, p.capabilityExecutors.Keys)
    ensures DoAll(w, BundleCalls(w.tables, p, active, faults, actionRefs, capabilityRefs))
         == BundleOutcome(w, p, active, faults)
  {
    hide Adds, Drops, ContributionCalls, Judge, Added;
    var adds := PutCalls(p, actionRefs, capabilityRefs);
    var mid := ContributionCalls(w.tables, p.content, active, faults);
    var drops := Drops(Actions, actionRefs) + Drops(Capabilities, capabilityRefs);
    var w1 := DoAll(w, adds);
    AddedExecutors(w, p, actionRefs, capabilityRefs);
    ContributionEffect(w1, p.content, active, faults);
    DoAllConcat(w, adds, mid);
    var w2 := DoAll(w, adds + mid);
    if Judge(w.tables, p.content, active, faults).Accepted? {
      assert adds + mid + [] == adds + mid;
    } else {
      DoAllConcat(w, adds + mid, drops);
      DroppedExecutors(w2, p, actionRefs, capabilityRefs);
      PutAndTaken(w.actionExecutors, p.actionExecutors);
      PutAndTaken(w.capabilityExecutors, p.capabilityExecutors);
    }
  }

  lemma PutAndTaken(base: Executors, more: Executors)
    ensures (base + more) - more.Keys == base - more.Keys
  {
  }

  // ---- what can be seen in between ----

  /** Every visible definition of this side can be executed. */
  ghost predicate Resolves(side: Side, w: Scene) {
    forall n :: n in Table(side, w.tables) ==> Table(side, w.tables)[n].ref in Registry(side, w)
  }

  /** No visible definition refers to one of these executors. */
  ghost predicate Unreferenced(table: map<string, Definition>, refs: set<string>) {
    forall n :: n in table ==> table[n].ref !in refs
  }

  /** A call that takes no executor away and shows no definition without one. */
  ghost predicate Growing(side: Side, w: Scene, call: Call) {
    && !(call.DropExecutor? && call.side == side)
    && (call.Save? && call.side == side ==> call.definition.ref in Registry(side, w))
  }

  lemma {:induction false} GrowingResolves(side: Side, w: Scene, calls: seq<Call>)
    requires Resolves(side, w) && forall i | 0 <= i < |calls| :: Growing(side, w, calls[i])
    ensures Resolves(side, DoAll(w, calls))
    ensures Registry(side, w).Keys <= Registry(side, DoAll(w, calls)).Keys
  {
    if calls != [] {
      var n := |calls| - 1;
      GrowingResolves(side, w, calls[..n]);
      assert Growing(side, w, calls[n]);
      StepGrows(side, w, DoAll(w, calls[..n]), calls[n]);
    }
  }

  lemma StepGrows(side: Side, w: Scene, v: Scene, call: Call)
    requires Resolves(side, v) && Growing(side, w, call) && Registry(side, w).Keys <= Registry(side, v).Keys
    ensures Resolves(side, Do(v, call)) && Registry(side, w).Keys <= Registry(side, Do(v, call)).Keys
  {
    var v' := Do(v, call);
    forall r | r in Registry(side, v) ensures r in Registry(side, v') {
    }
    forall n | n in Table(side, v'.tables) ensures Table(side, v'.tables)[n].ref in Registry(side, v') {
      if !(call.Save? && call.side == side && call.definition.name == n) {
        assert n in Table(side, v.tables) && Table(side, v'.tables)[n] == Table(side, v.tables)[n];
      }
    }
  }

  /** Taking executors away: what the end still resolves, every moment before it did. */
  lemma {:induction false} DroppingResolves(side: Side, w: Scene, calls: seq<Call>, n: nat)
    requires n <= |calls| && forall i | 0 <= i < |calls| :: calls[i].DropExecutor?
    requires Resolves(side, DoAll(w, calls))
    ensures Resolves(side, DoAll(w, calls[..n]))
    decreases |calls| - n
  {
    if n == |calls| {
      assert calls[..n] == calls;
    } else {
      DroppingResolves(side, w, calls, n + 1);
      assert calls[..n + 1][..n] == calls[..n] && calls[..n + 1][n] == calls[n];
    }
  }

  lemma ContributionGrows(side: Side, t: Tables, w: Scene, p: Parcel, active: bool, faults: Faults)
    requires Complete(p) && Packed(side, p).Keys <= Registry(side, w).Keys
    ensures var calls := ContributionCalls(t, p.content, active, faults);
            forall i | 0 <= i < |calls| :: Growing(side, w, calls[i])
  {
    var calls := ContributionCalls(t, p.content, active, faults);
    if calls != [] {
      SavingOf(p.content, faults);
      forall i | 0 <= i < |calls| ensures Growing(side, w, calls[i]) {
        assert OfContribution(p.content, calls[i]);
      }
    }
  }

  /** A call of a registration saves one of the contribution's own, bound definitions, or takes no executor away. */
  predicate OfContribution(c: Contribution, call: Call) {
    match call
    case Save(side, d) => d in Definitions(side, c)
    case SavePlugin(_) => true
    case Delete(_, _) => true
    case _ => false
  }

  predicate AllOfContribution(c: Contribution, calls: seq<Call>) {
    forall i | 0 <= i < |calls| :: OfContribution(c, calls[i])
  }

  lemma ListsOfContribution(c: Contribution, side: Side, n: nat)
    requires n <= |Definitions(side, c)|
    ensures AllOfContribution(c, Saves(side, Definitions(side, c)[..n]))
    ensures AllOfContribution(c, Deletes(side, Definitions(side, c)[..n]))
  {
  }

  lemma OfConcat(c: Contribution, a: seq<Call>, b: seq<Call>)
    ensures AllOfContribution(c, a + b) <==> AllOfContribution(c, a) && AllOfContribution(c, b)
  {
    assert forall i | 0 <= i < |a| :: (a + b)[i] == a[i];
    assert forall i | 0 <= i < |b| :: (a + b)[|a| + i] == b[i];
  }

  lemma UndoingOf(c: Contribution, n: nat, m: nat)
    requires n <= |c.actions| && m <= |c.capabilities|
    ensures AllOfContribution(c, Undoing(c.actions[..n], c.capabilities[..m]))
  {
    ListsOfContribution(c, Actions, n);
    ListsOfContribution(c, Capabilities, m);
    OfConcat(c, Deletes(Actions, c.actions[..n]), Deletes(Capabilities, c.capabilities[..m]));
  }

  lemma SavingOf(c: Contribution, faults: Faults)
    ensures AllOfContribution(c, SavingCalls(c, faults))
  {
    hide AllOfContribution, Undoing, Saves;
    var a, k := FirstIn(faults.actions, c.actions), FirstIn(faults.capabilities, c.capabilities);
    var all, too := |c.actions|, |c.capabilities|;
    assert c.actions[..all] == c.actions && c.capabilities[..too] == c.capabilities && c.capabilities[..0] == [];
    ListsOfContribution(c, Actions, a);
    ListsOfContribution(c, Capabilities, k);
    UndoingOf(c, a, 0);
    UndoingOf(c, all, k);
    OnePlugin(c);
    OfConcat(c, Saves(Actions, c.actions[..a]), Undoing(c.actions[..a], []));
    OfConcat(c, Saves(Capabilities, c.capabilities[..k]), Undoing(c.actions, c.capabilities[..k]));
    OfConcat(c, Saves(Capabilities, c.capabilities), [SavePlugin(c)]);
    OfConcat(c, Saves(Actions, c.actions),
             Saves(Capabilities, c.capabilities[..k]) + Undoing(c.actions, c.capabilities[..k]));
    OfConcat(c, Saves(Actions, c.actions), Saves(Capabilities, c.capabilities) + [SavePlugin(c)]);
  }

  lemma OnePlugin(c: Contribution)
    ensures AllOfContribution(c, [SavePlugin(c)])
  {
  }

  /** What is visible resolves before the first of these calls, between any two of them and after the last. */
  ghost predicate AllAlong(side: Side, w: Scene, calls: seq<Call>) {
    forall n | 0 <= n <= |calls| :: Resolves(side, DoAll(w, calls[..n]))
  }

  lemma AlongConcat(side: Side, w: Scene, a: seq<Call>, b: seq<Call>)
    ensures AllAlong(side, w, a + b) <==> AllAlong(side, w, a) && AllAlong(side, DoAll(w, a), b)
  {
    hide DoAll, Resolves;
    forall n | 0 <= n <= |a| ensures (a + b)[..n] == a[..n] {
    }
    forall n | 0 <= n <= |b| ensures DoAll(w, (a + b)[..|a| + n]) == DoAll(DoAll(w, a), b[..n]) {
      assert (a + b)[..|a| + n] == a + b[..n];
      DoAllConcat(w, a, b[..n]);
    }
    if AllAlong(side, w, a + b) {
      forall n | 0 <= n <= |a| ensures Resolves(side, DoAll(w, a[..n])) {
        assert Resolves(side, DoAll(w, (a + b)[..n]));
      }
      forall n | 0 <= n <= |b| ensures Resolves(side, DoAll(DoAll(w, a), b[..n])) {
        assert Resolves(side, DoAll(w, (a + b)[..|a| + n]));
      }
    }
    if AllAlong(side, w, a) && AllAlong(side, DoAll(w, a), b) {
      forall n | 0 <= n <= |a + b| ensures Resolves(side, DoAll(w, (a + b)[..n])) {
        if n <= |a| {
          assert (a + b)[..n] == a[..n];
        } else {
          assert DoAll(w, (a + b)[..|a| + (n - |a|)]) == DoAll(DoAll(w, a), b[..n - |a|]);
        }
      }
    }
  }

  lemma GrowingAlong(side: Side, w: Scene, calls: seq<Call>)
    requires Resolves(side, w) && forall i | 0 <= i < |calls| :: Growing(side, w, calls[i])
    ensures AllAlong(side, w, calls)
  {
    hide Resolves, DoAll, Growing;
    forall n | 0 <= n <= |calls| ensures Resolves(side, DoAll(w, calls[..n])) {
      GrowingResolves(side, w, calls[..n]);
    }
  }

  lemma DroppingAlong(side: Side, w: Scene, calls: seq<Call>)
    requires forall i | 0 <= i < |calls| :: calls[i].DropExecutor?
    ensures AllAlong(side, w, calls) <==> Resolves(side, DoAll(w, calls))
  {
    hide Resolves, DoAll;
    assert calls[..|calls|] == calls;
    if Resolves(side, DoAll(w, calls)) {
      forall n | 0 <= n <= |calls| ensures Resolves(side, DoAll(w, calls[..n])) {
        DroppingResolves(side, w, calls, n);
      }
    }
  }

  /** Taking executors away leaves everything resolving iff nothing refers to one of them. */
  lemma ResolvesWithout(side: Side, w: Scene, w': Scene, refs: set<string>)
    requires Resolves(side, w) && Table(side, w'.tables) == Table(side, w.tables)
    requires Registry(side, w') == Registry(side, w) - refs
    ensures Resolves(side, w') <==> Unreferenced(Table(side, w.tables), refs)
  {
    if Resolves(side, w') {
      forall n | n in Table(side, w.tables) ensures Table(side, w.tables)[n].ref !in refs {
        assert Table(side, w'.tables)[n].ref in Registry(side, w');
      }
    }
  }

  /**
   * Before, after and between any two calls of a bundle registration every visible action, and every visible
   * capability, has its executor: always when the bundle is accepted, and when it is refused iff none refers
   * to one of the bundle's own.
   */
  lemma EveryMomentResolves(side: Side, w: Scene, p: Parcel, active: bool, faults: Faults,
                            actionRefs: seq<string>, capabilityRefs: seq<string>)
    requires Complete(p) && Resolves(side, w)
    requires Walk(actionRefs, p.actionExecutors.Keys) && Walk(capabilityRefs, p.capabilityExecutors.Keys)
    ensures AllAlong(side, w, BundleCalls(w.tables, p, active, faults, actionRefs, capabilityRefs))
       <==> Judge(w.tables, p.content, active, faults).Accepted?
            || Unreferenced(Table(side, w.tables), Packed(side, p).Keys)
  {
    hide AllAlong, DoAll, ContributionCalls, Judge, Added, Resolves, Unreferenced;
    var accepted := Judge(w.tables, p.content, active, faults).Accepted?;
    var adds := PutCalls(p, actionRefs, capabilityRefs);
    var mid := ContributionCalls(w.tables, p.content, active, faults);
    var drops := if accepted then [] else Drops(Actions, actionRefs) + Drops(Capabilities, capabilityRefs);
    var w1 := DoAll(w, adds);
    AddedExecutors(w, p, actionRefs, capabilityRefs);
    GrowingAlong(side, w, adds);
    AlongEnd(side, w, adds);
    ContributionGrows(side, w.tables, w1, p, active, faults);
    GrowingAlong(side, w1, mid);
    AlongConcat(side, w, adds, mid);
    AlongConcat(side, w, adds + mid, drops);
    DoAllConcat(w, adds, mid);
    DroppingAlong(side, DoAll(w, adds + mid), drops);
    AlongEnd(side, w1, mid);
    DoAllConcat(w, adds + mid, drops);
    BundleEffect(w, p, active, faults, actionRefs, capabilityRefs);
    if accepted {
      NoCalls(DoAll(w, adds + mid));
    } else {
      ResolvesWithout(side, w, BundleOutcome(w, p, active, faults), Packed(side, p).Keys);
    }
  }

  /** Executors that were not registered before are referred to by nothing that resolved. */
  lemma FreshIsUnreferenced(side: Side, w: Scene, refs: set<string>)
    requires Resolves(side, w) && Registry(side, w).Keys !! refs
    ensures Unreferenced(Table(side, w.tables), refs)
  {
  }

  lemma AlongEnd(side: Side, w: Scene, calls: seq<Call>)
    requires AllAlong(side, w, calls)
    ensures Resolves(side, DoAll(w, calls))
  {
    assert calls[..|calls|] == calls;
  }

  lemma NoCalls(w: Scene)
    ensures DoAll(w, []) == w
  {
  }

  /** At no moment does a deregistration leave something visible without its executor. */
  lemma DeregisterMoments(side: Side, w: Scene, c: Contribution)
    requires Resolves(side, w)
    ensures AllAlong(side, w, DeregisterCalls(c))
  {
    hide Resolves, AllAlong;
    GrowingAlong(side, w, DeregisterCalls(c));
  }

  lemma DeregisterEffect(w: Scene, c: Contribution)
    ensures DoAll(w, Undoing(c.actions, c.capabilities)) == w.(tables := Stripped(w.tables, c))
    ensures DoAll(w, DeregisterCalls(c)) == w.(tables := CompositionModel.Removed(w.tables, c))
  {
    hide DeleteAll;
    var w1 := DoAll(w, Deletes(Actions, c.actions));
    var w2 := DoAll(w1, Deletes(Capabilities, c.capabilities));
    DeletesEffect(w, Actions, c.actions);
    DeletesEffect(w1, Capabilities, c.capabilities);
    DoAllConcat(w, Deletes(Actions, c.actions), Deletes(Capabilities, c.capabilities));
    DoAllConcat(w, Undoing(c.actions, c.capabilities), [DeletePlugin(c.id)]);
    OneCall(w2, DeletePlugin(c.id));
  }

  /** DeregisterPlugin up to the plugin repository's answer. */
  function DeregisterCalls(c: Contribution): seq<Call> {
    Undoing(c.actions, c.capabilities) + [DeletePlugin(c.id)]
  }

  // ---- histories of bundles ----

  datatype BundleOp =
    | Put(parcel: Parcel, active: bool, faults: Faults, actionRefs: seq<string>, capabilityRefs: seq<string>)
    | Remove(id: string)

  ghost predicate Proper(op: BundleOp) {
    op.Put? ==>
      && Complete(op.parcel)
      && Walk(op.actionRefs, op.parcel.actionExecutors.Keys)
      && Walk(op.capabilityRefs, op.parcel.capabilityExecutors.Keys)
  }

  ghost function OpCalls(w: Scene, op: BundleOp): seq<Call>
    requires Proper(op)
  {
    match op
    case Put(p, active, faults, actionRefs, capabilityRefs) =>
      BundleCalls(w.tables, p, active, faults, actionRefs, capabilityRefs)
    case Remove(id) => if id in w.tables.plugins then DeregisterCalls(w.tables.plugins[id]) else []
  }

  ghost function HistoryCalls(w: Scene, ops: seq<BundleOp>): seq<Call>
    requires forall i | 0 <= i < |ops| :: Proper(ops[i])
    decreases |ops|
  {
    if ops == [] then [] else OpCalls(w, ops[0]) + HistoryCalls(DoAll(w, OpCalls(w, ops[0])), ops[1..])
  }

  /** At the time of each refused bundle nothing visible refers to its executors. */
  ghost predicate Careful(side: Side, w: Scene, ops: seq<BundleOp>)
    requires forall i | 0 <= i < |ops| :: Proper(ops[i])
    decreases |ops|
  {
    ops != [] ==>
      && CarefulOp(side, w, ops[0])
      && Careful(side, DoAll(w, OpCalls(w, ops[0])), ops[1..])
  }

  ghost predicate CarefulOp(side: Side, w: Scene, op: BundleOp) {
    op.Put? ==>
      || Judge(w.tables, op.parcel.content, op.active, op.faults).Accepted?
      || Unreferenced(Table(side, w.tables), Packed(side, op.parcel).Keys)
  }

  lemma OpMoments(side: Side, w: Scene, op: BundleOp)
    requires Proper(op) && Resolves(side, w)
    ensures AllAlong(side, w, OpCalls(w, op)) <==> CarefulOp(side, w, op)
  {
    hide AllAlong, Resolves, BundleCalls, Judge, Unreferenced;
    match op {
      case Put(p, active, faults, actionRefs, capabilityRefs) =>
        EveryMomentResolves(side, w, p, active, faults, actionRefs, capabilityRefs);
      case Remove(id) =>
        if id in w.tables.plugins {
          DeregisterMoments(side, w, w.tables.plugins[id]);
        } else {
          GrowingAlong(side, w, []);
        }
    }
  }

  /** The same over every history of bundle registrations and deregistrations. */
  lemma {:induction false} HistoryResolves(side: Side, w: Scene, ops: seq<BundleOp>)
    requires Resolves(side, w) && forall i | 0 <= i < |ops| :: Proper(ops[i])
    ensures AllAlong(side, w, HistoryCalls(w, ops)) <==> Careful(side, w, ops)
    decreases |ops|
  {
    hide AllAlong, Resolves, OpCalls, CarefulOp, DoAll;
    if ops == [] {
      GrowingAlong(side, w, []);
    } else {
      var first := OpCalls(w, ops[0]);
      OpMoments(side, w, ops[0]);
      AlongConcat(side, w, first, HistoryCalls(DoAll(w, first), ops[1..]));
      if CarefulOp(side, w, ops[0]) {
        AlongEnd(side, w, first);
        HistoryResolves(side, DoAll(w, first), ops[1..]);
      }
    }
  }
}
