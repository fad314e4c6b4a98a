/** The three registration tables as a value, and what every history of registrations keeps of them. */
module CompositionModel {

  /** An action or capability definition: its name, its executor reference (empty when unbound), the rest. */
  datatype Definition = Definition(name: string, ref: string, body: int)

  datatype Contribution = Contribution(id: string, actions: seq<Definition>, capabilities: seq<Definition>)

  datatype Tables = Tables(
    actions: map<string, Definition>,
    capabilities: map<string, Definition>,
    plugins: map<string, Contribution>)

  /** Which saves the repositories refuse during one registration. */
  datatype Faults = Faults(actions: set<string>, capabilities: set<string>, plugin: bool)

  datatype Problem =
    | AlreadyRegistered
    | ActionTaken(name: string)
    | CapabilityTaken(name: string)
    | AlreadyActive
    | UnboundAction(name: string)
    | UnboundCapability(name: string)
    | ActionSaveFailed(name: string)
    | CapabilitySaveFailed(name: string)
    | PluginSaveFailed

  datatype Verdict = Accepted | Refused(problem: Problem)

  predicate Distinct(ds: seq<Definition>) {
    forall i, j :: 0 <= i < j < |ds| ==> ds[i].name != ds[j].name
  }

  /** What NewPluginContribution guarantees. */
  predicate WellFormed(c: Contribution) {
    c.id != "" && Distinct(c.actions) && Distinct(c.capabilities)
  }

  predicate Named(ds: seq<Definition>, name: string) {
    exists i :: 0 <= i < |ds| && ds[i].name == name
  }

  predicate Holds(t: map<string, Definition>, d: Definition) {
    d.name in t && t[d.name] == d
  }

  lemma NamedSnoc(ds: seq<Definition>)
    requires ds != []
    ensures forall n :: Named(ds, n) <==> n == ds[|ds| - 1].name || Named(ds[..|ds| - 1], n)
    ensures Distinct(ds) ==> Distinct(ds[..|ds| - 1]) && !Named(ds[..|ds| - 1], ds[|ds| - 1].name)
    ensures forall i :: 0 <= i < |ds| - 1 ==> ds[..|ds| - 1][i] == ds[i]
  {
    var front, d := ds[..|ds| - 1], ds[|ds| - 1];
    forall n ensures Named(ds, n) <==> n == d.name || Named(front, n) {
      if Named(ds, n) {
        var i :| 0 <= i < |ds| && ds[i].name == n;
        assert i < |ds| - 1 ==> front[i].name == n;
      }
      if Named(front, n) {
        var i :| 0 <= i < |front| && front[i].name == n;
        assert ds[i].name == n;
      }
    }
  }

  /** A table after saving definitions in order. */
  function SaveAll(t: map<string, Definition>, ds: seq<Definition>): (t': map<string, Definition>)
    ensures forall n :: n in t' <==> n in t || Named(ds, n)
    ensures forall n :: n in t && !Named(ds, n) ==> t'[n] == t[n]
    ensures Distinct(ds) ==> forall i :: 0 <= i < |ds| ==> Holds(t', ds[i])
  {
    if ds == [] then t
    else
      var d := ds[|ds| - 1];
      var t1 := SaveAll(t, ds[..|ds| - 1]);
      NamedSnoc(ds);
      t1[d.name := d]
  }

  function DeleteAll(t: map<string, Definition>, ds: seq<Definition>): (t': map<string, Definition>)
    ensures forall n :: n in t' <==> n in t && !Named(ds, n)
    ensures forall n :: n in t' ==> t'[n] == t[n]
  {
    map n | n in t && !Named(ds, n) :: t[n]
  }

  predicate Free(t: map<string, Definition>, ds: seq<Definition>) {
    forall i :: 0 <= i < |ds| ==> ds[i].name !in t
  }

  lemma SaveThenDelete(t: map<string, Definition>, ds: seq<Definition>)
    requires Free(t, ds)
    ensures DeleteAll(SaveAll(t, ds), ds) == t
  {
  }

  function FirstUnbound(ds: seq<Definition>): (i: nat)
    ensures i <= |ds|
    ensures i < |ds| ==> ds[i].ref == ""
    ensures forall j :: 0 <= j < i ==> ds[j].ref != ""
    decreases |ds|
  {
    if ds == [] || ds[0].ref == "" then 0 else 1 + FirstUnbound(ds[1..])
  }

  /** The first definition whose name is among the given ones. */
  function FirstIn(names: set<string>, ds: seq<Definition>): (i: nat)
    ensures i <= |ds|
    ensures i < |ds| ==> ds[i].name in names
    ensures forall j :: 0 <= j < i ==> ds[j].name !in names
    decreases |ds|
  {
    if ds == [] || ds[0].name in names then 0 else 1 + FirstIn(names, ds[1..])
  }

  /** Checked before the contribution is activated. */
  function Conflict(t: Tables, c: Contribution): Verdict {
    var a := FirstIn(t.actions.Keys, c.actions);
    var k := FirstIn(t.capabilities.Keys, c.capabilities);
    if c.id in t.plugins then Refused(AlreadyRegistered)
    else if a < |c.actions| then Refused(ActionTaken(c.actions[a].name))
    else if k < |c.capabilities| then Refused(CapabilityTaken(c.capabilities[k].name))
    else Accepted
  }

  /** Activate. */
  function Activation(c: Contribution, active: bool): Verdict {
    var a := FirstUnbound(c.actions);
    var k := FirstUnbound(c.capabilities);
    if active then Refused(AlreadyActive)
    else if a < |c.actions| then Refused(UnboundAction(c.actions[a].name))
    else if k < |c.capabilities| then Refused(UnboundCapability(c.capabilities[k].name))
    else Accepted
  }

  function Saving(c: Contribution, faults: Faults): Verdict {
    var a := FirstIn(faults.actions, c.actions);
    var k := FirstIn(faults.capabilities, c.capabilities);
    if a < |c.actions| then Refused(ActionSaveFailed(c.actions[a].name))
    else if k < |c.capabilities| then Refused(CapabilitySaveFailed(c.capabilities[k].name))
    else if faults.plugin then Refused(PluginSaveFailed)
    else Accepted
  }

  /** The verdict on a registration: conflicts first, then activation, then the saves. */
  function Judge(t: Tables, c: Contribution, active: bool, faults: Faults): Verdict {
    if Conflict(t, c).Refused? then Conflict(t, c)
    else if Activation(c, active).Refused? then Activation(c, active)
    else Saving(c, faults)
  }

  /** Nothing stands in the way: not the tables, not the contribution itself, not the repositories. */
  ghost predicate Acceptable(t: Tables, c: Contribution, active: bool, faults: Faults) {
    && c.id !in t.plugins && !active && !faults.plugin
    && (forall d | d in c.actions :: d.name !in t.actions && d.ref != "" && d.name !in faults.actions)
    && (forall d | d in c.capabilities :: d.name !in t.capabilities && d.ref != "" && d.name !in faults.capabilities)
  }

  /** d is the first of these definitions for which this holds. */
  ghost predicate FirstWith(ds: seq<Definition>, name: string, bad: Definition -> bool) {
    exists i :: 0 <= i < |ds| && ds[i].name == name && FirstAt(ds, i, bad)
  }

  ghost predicate FirstAt(ds: seq<Definition>, i: nat, bad: Definition -> bool) {
    i < |ds| && bad(ds[i]) && forall j | 0 <= j < i :: !bad(ds[j])
  }

  ghost predicate NoneWith(ds: seq<Definition>, bad: Definition -> bool) {
    forall d | d in ds :: !bad(d)
  }

  function Among(names: set<string>): Definition -> bool {
    (d: Definition) => d.name in names
  }

  function Unbound(): Definition -> bool {
    (d: Definition) => d.ref == ""
  }

  ghost predicate NoConflict(t: Tables, c: Contribution) {
    && c.id !in t.plugins
    && NoneWith(c.actions, Among(t.actions.Keys)) && NoneWith(c.capabilities, Among(t.capabilities.Keys))
  }

  ghost predicate CanActivate(c: Contribution, active: bool) {
    !active && NoneWith(c.actions, Unbound()) && NoneWith(c.capabilities, Unbound())
  }

  /**
   * What a refusal says is so, it is said of the first definition it is true of, and nothing that the source
   * looks at before was in the way.
   */
  ghost predicate Justified(t: Tables, c: Contribution, active: bool, faults: Faults, problem: Problem) {
    match problem
    case AlreadyRegistered => c.id in t.plugins
    case ActionTaken(name) => c.id !in t.plugins && FirstWith(c.actions, name, Among(t.actions.Keys))
    case CapabilityTaken(name) =>
      && c.id !in t.plugins && NoneWith(c.actions, Among(t.actions.Keys))
      && FirstWith(c.capabilities, name, Among(t.capabilities.Keys))
    case AlreadyActive => NoConflict(t, c) && active
    case UnboundAction(name) => NoConflict(t, c) && !active && FirstWith(c.actions, name, Unbound())
    case UnboundCapability(name) =>
      NoConflict(t, c) && !active && NoneWith(c.actions, Unbound()) && FirstWith(c.capabilities, name, Unbound())
    case ActionSaveFailed(name) =>
      NoConflict(t, c) && CanActivate(c, active) && FirstWith(c.actions, name, Among(faults.actions))
    case CapabilitySaveFailed(name) =>
      && NoConflict(t, c) && CanActivate(c, active) && NoneWith(c.actions, Among(faults.actions))
      && FirstWith(c.capabilities, name, Among(faults.capabilities))
    case PluginSaveFailed =>
      && NoConflict(t, c) && CanActivate(c, active) && faults.plugin
      && NoneWith(c.actions, Among(faults.actions)) && NoneWith(c.capabilities, Among(faults.capabilities))
  }

  lemma FoundIn(names: set<string>, ds: seq<Definition>)
    ensures var i := FirstIn(names, ds);
            if i < |ds| then FirstWith(ds, ds[i].name, Among(names)) && !NoneWith(ds, Among(names))
            else NoneWith(ds, Among(names))
  {
    var i := FirstIn(names, ds);
    if i < |ds| {
      assert FirstAt(ds, i, Among(names)) && ds[i] in ds;
    }
  }

  lemma FoundUnbound(ds: seq<Definition>)
    ensures var i := FirstUnbound(ds);
            if i < |ds| then FirstWith(ds, ds[i].name, Unbound()) && !NoneWith(ds, Unbound())
            else NoneWith(ds, Unbound())
  {
    var i := FirstUnbound(ds);
    if i < |ds| {
      assert FirstAt(ds, i, Unbound()) && ds[i] in ds;
    }
  }

  lemma AcceptableMeans(t: Tables, c: Contribution, active: bool, faults: Faults)
    ensures Acceptable(t, c, active, faults) <==>
            && NoConflict(t, c) && CanActivate(c, active) && !faults.plugin
            && NoneWith(c.actions, Among(faults.actions)) && NoneWith(c.capabilities, Among(faults.capabilities))
  {
  }

  /** A registration is accepted iff nothing stands in its way, and a refusal is justified by what it says. */
  lemma VerdictMeans(t: Tables, c: Contribution, active: bool, faults: Faults)
    ensures Judge(t, c, active, faults).Accepted? <==> Acceptable(t, c, active, faults)
    ensures Judge(t, c, active, faults).Refused? ==>
              Justified(t, c, active, faults, Judge(t, c, active, faults).problem)
  {
    hide FirstWith, NoneWith, FirstIn, FirstUnbound, Among, Unbound, Acceptable;
    AcceptableMeans(t, c, active, faults);
    FoundIn(t.actions.Keys, c.actions);
    FoundIn(t.capabilities.Keys, c.capabilities);
    FoundUnbound(c.actions);
    FoundUnbound(c.capabilities);
    FoundIn(faults.actions, c.actions);
    FoundIn(faults.capabilities, c.capabilities);
  }

  function Added(t: Tables, c: Contribution): Tables {
    Tables(SaveAll(t.actions, c.actions), SaveAll(t.capabilities, c.capabilities), t.plugins[c.id := c])
  }

  function Removed(t: Tables, c: Contribution): Tables {
    Tables(DeleteAll(t.actions, c.actions), DeleteAll(t.capabilities, c.capabilities), t.plugins - {c.id})
  }

  /** What a deregistration leaves whose plugin repository refuses the delete: the plugin, and nothing it gave. */
  function Stripped(t: Tables, c: Contribution): Tables {
    t.(actions := DeleteAll(t.actions, c.actions), capabilities := DeleteAll(t.capabilities, c.capabilities))
  }

  // ---- histories ----

  datatype Op =
    | Register(contribution: Contribution, active: bool, faults: Faults)
    | Deregister(id: string)

  function Take(t: Tables, op: Op): Tables {
    match op
    case Register(c, active, faults) => if Judge(t, c, active, faults).Accepted? then Added(t, c) else t
    case Deregister(id) => if id in t.plugins then Removed(t, t.plugins[id]) else t
  }

  function Play(t: Tables, ops: seq<Op>): Tables
    decreases |ops|
  {
    if ops == [] then t else Play(Take(t, ops[0]), ops[1..])
  }

  /** Every entry of a table belongs to exactly one registered plugin, and every contributed one is there. */
  ghost predicate Owned(table: map<string, Definition>, parts: map<string, seq<Definition>>) {
    && (forall id, i :: id in parts && 0 <= i < |parts[id]| ==> Holds(table, parts[id][i]))
    && (forall n :: n in table ==> exists id :: id in parts && Named(parts[id], n))
    && (forall id, id', n :: id in parts && id' in parts && Named(parts[id], n) && Named(parts[id'], n) ==> id == id')
  }

  function ActionsOf(t: Tables): map<string, seq<Definition>> {
    map id | id in t.plugins :: t.plugins[id].actions
  }

  function CapabilitiesOf(t: Tables): map<string, seq<Definition>> {
    map id | id in t.plugins :: t.plugins[id].capabilities
  }

  ghost predicate Inv(t: Tables) {
    && (forall id :: id in t.plugins ==> t.plugins[id].id == id && WellFormed(t.plugins[id]))
    && Owned(t.actions, ActionsOf(t))
    && Owned(t.capabilities, CapabilitiesOf(t))
  }

  lemma OwnedAfterAdd(
    table: map<string, Definition>, parts: map<string, seq<Definition>>, id: string, ds: seq<Definition>)
    requires Owned(table, parts) && id !in parts && Distinct(ds) && Free(table, ds)
    ensures Owned(SaveAll(table, ds), parts[id := ds])
  {
    var table', parts' := SaveAll(table, ds), parts[id := ds];
    forall x, n | x in parts && Named(parts[x], n) ensures n in table && !Named(ds, n) {
      var i :| 0 <= i < |parts[x]| && parts[x][i].name == n;
      assert Holds(table, parts[x][i]);
    }
    forall x, i | x in parts' && 0 <= i < |parts'[x]| ensures Holds(table', parts'[x][i]) {
      if x != id {
        assert Holds(table, parts[x][i]);
        assert Named(parts[x], parts[x][i].name);
      }
    }
    forall n | n in table' ensures exists x :: x in parts' && Named(parts'[x], n) {
      if Named(ds, n) {
        assert Named(parts'[id], n);
      } else {
        var x :| x in parts && Named(parts[x], n);
        assert Named(parts'[x], n);
      }
    }
    forall x, y, n | x in parts' && y in parts' && Named(parts'[x], n) && Named(parts'[y], n) ensures x == y {
    }
  }

  lemma OwnedAfterRemove(table: map<string, Definition>, parts: map<string, seq<Definition>>, id: string)
    requires Owned(table, parts) && id in parts
    ensures Owned(DeleteAll(table, parts[id]), parts - {id})
  {
    var table', parts' := DeleteAll(table, parts[id]), parts - {id};
    forall x, i | x in parts' && 0 <= i < |parts'[x]| ensures Holds(table', parts'[x][i]) {
      assert Holds(table, parts[x][i]);
      assert Named(parts[x], parts[x][i].name);
    }
    forall n | n in table' ensures exists x :: x in parts' && Named(parts'[x], n) {
      var x :| x in parts && Named(parts[x], n);
      assert Named(parts'[x], n);
    }
  }

  lemma AcceptedIsFree(t: Tables, c: Contribution, active: bool, faults: Faults)
    requires Judge(t, c, active, faults).Accepted?
    ensures c.id !in t.plugins && Free(t.actions, c.actions) && Free(t.capabilities, c.capabilities)
  {
  }

  lemma AddedParts(t: Tables, c: Contribution)
    ensures ActionsOf(Added(t, c)) == ActionsOf(t)[c.id := c.actions]
    ensures CapabilitiesOf(Added(t, c)) == CapabilitiesOf(t)[c.id := c.capabilities]
  {
    hide SaveAll;
  }

  lemma AddKeeps(t: Tables, c: Contribution)
    requires Inv(t) && WellFormed(c) && c.id !in t.plugins
    requires Free(t.actions, c.actions) && Free(t.capabilities, c.capabilities)
    ensures Inv(Added(t, c))
  {
    hide Owned, SaveAll, Free;
    assert c.id !in ActionsOf(t) && c.id !in CapabilitiesOf(t);
    AddedParts(t, c);
    hide ActionsOf, CapabilitiesOf;
    OwnedAfterAdd(t.actions, ActionsOf(t), c.id, c.actions);
    OwnedAfterAdd(t.capabilities, CapabilitiesOf(t), c.id, c.capabilities);
  }

  lemma RemoveKeeps(t: Tables, id: string)
    requires Inv(t) && id in t.plugins
    ensures Inv(Removed(t, t.plugins[id]))
  {
    OwnedAfterRemove(t.actions, ActionsOf(t), id);
    OwnedAfterRemove(t.capabilities, CapabilitiesOf(t), id);
    hide Owned, DeleteAll;
    var t' := Removed(t, t.plugins[id]);
    assert ActionsOf(t') == ActionsOf(t) - {id};
    assert CapabilitiesOf(t') == CapabilitiesOf(t) - {id};
  }

  lemma TakeKeeps(t: Tables, op: Op)
    requires Inv(t) && (op.Register? ==> WellFormed(op.contribution))
    ensures Inv(Take(t, op))
  {
    hide Inv, Added, Removed, Judge;
    match op {
      case Register(c, active, faults) =>
        if Judge(t, c, active, faults).Accepted? {
          AcceptedIsFree(t, c, active, faults);
          AddKeeps(t, c);
        }
      case Deregister(id) =>
        if id in t.plugins {
          RemoveKeeps(t, id);
        }
    }
  }

  /** After any history the tables are the disjoint union of what the registered plugins contributed. */
  lemma {:induction false} HistoryKeepsOwnership(t: Tables, ops: seq<Op>)
    requires Inv(t) && forall i :: 0 <= i < |ops| && ops[i].Register? ==> WellFormed(ops[i].contribution)
    ensures Inv(Play(t, ops))
    decreases |ops|
  {
    if ops != [] {
      TakeKeeps(t, ops[0]);
      HistoryKeepsOwnership(Take(t, ops[0]), ops[1..]);
    }
  }

  lemma EmptyTables()
    ensures Inv(Tables(map[], map[], map[]))
  {
  }

  /** In particular after any history from a service's beginning. */
  lemma OwnershipFromTheStart(ops: seq<Op>)
    requires forall i :: 0 <= i < |ops| && ops[i].Register? ==> WellFormed(ops[i].contribution)
    ensures Inv(Play(Tables(map[], map[], map[]), ops))
  {
    EmptyTables();
    HistoryKeepsOwnership(Tables(map[], map[], map[]), ops);
  }

  /** Deregistering undoes registering, table for table. */
  lemma DeregisterUndoesRegister(t: Tables, c: Contribution, active: bool, faults: Faults)
    requires Judge(t, c, active, faults).Accepted?
    ensures Take(Take(t, Register(c, active, faults)), Deregister(c.id)) == t
  {
    SaveThenDelete(t.actions, c.actions);
    SaveThenDelete(t.capabilities, c.capabilities);
    assert t.plugins[c.id := c] - {c.id} == t.plugins;
  }

  predicate Bound(c: Contribution) {
    FirstUnbound(c.actions) == |c.actions| && FirstUnbound(c.capabilities) == |c.capabilities|
  }

  /** And registering the same content again, as a fresh contribution, undoes deregistering. */
  lemma RegisterUndoesDeregister(t: Tables, id: string)
    requires Inv(t) && id in t.plugins && Bound(t.plugins[id])
    ensures Take(Take(t, Deregister(id)), Register(t.plugins[id], false, Faults({}, {}, false))) == t
  {
    hide Inv, Judge, Added, Removed, Bound;
    var c := t.plugins[id];
    ReadmittedAfterRemoval(t, id);
    Refilled(t, id);
    FiledUnderItsId(t, id);
  }

  lemma FiledUnderItsId(t: Tables, id: string)
    requires Inv(t) && id in t.plugins
    ensures t.plugins[id].id == id && id !in Removed(t, t.plugins[id]).plugins
  {
  }

  lemma Refilled(t: Tables, id: string)
    requires Inv(t) && id in t.plugins
    ensures Added(Removed(t, t.plugins[id]), t.plugins[id]) == t
  {
    hide Owned, SaveAll, DeleteAll;
    var c := t.plugins[id];
    assert ActionsOf(t)[id] == c.actions && CapabilitiesOf(t)[id] == c.capabilities;
    Refill(t.actions, ActionsOf(t), id);
    Refill(t.capabilities, CapabilitiesOf(t), id);
    assert (t.plugins - {id})[id := c] == t.plugins;
  }

  lemma ReadmittedAfterRemoval(t: Tables, id: string)
    requires Inv(t) && id in t.plugins && Bound(t.plugins[id])
    ensures Judge(Removed(t, t.plugins[id]), t.plugins[id], false, Faults({}, {}, false)).Accepted?
  {
    var c := t.plugins[id];
    hide Owned;
    RemovedNames(t.actions, c.actions);
    RemovedNames(t.capabilities, c.capabilities);
  }

  lemma RemovedNames(table: map<string, Definition>, ds: seq<Definition>)
    ensures Free(DeleteAll(table, ds), ds)
  {
    forall i | 0 <= i < |ds| ensures ds[i].name !in DeleteAll(table, ds) {
      assert Named(ds, ds[i].name);
    }
  }

  lemma Refill(table: map<string, Definition>, parts: map<string, seq<Definition>>, id: string)
    requires Owned(table, parts) && id in parts && Distinct(parts[id])
    ensures SaveAll(DeleteAll(table, parts[id]), parts[id]) == table
  {
    var ds := parts[id];
    var again := SaveAll(DeleteAll(table, ds), ds);
    forall n | Named(ds, n) ensures n in table && again[n] == table[n] {
      var i :| 0 <= i < |ds| && ds[i].name == n;
      assert Holds(table, parts[id][i]) && Holds(again, ds[i]);
    }
  }

  // ---- a refused delete ----

  lemma NothingNamed(table: map<string, Definition>, ds: seq<Definition>)
    ensures (forall i :: 0 <= i < |ds| ==> ds[i].name in DeleteAll(table, ds)) <==> ds == []
    ensures ds == [] ==> DeleteAll(table, ds) == table
  {
    RemovedNames(table, ds);
    assert ds != [] ==> ds[0].name !in DeleteAll(table, ds);
  }

  lemma OwnedNames(table: map<string, Definition>, parts: map<string, seq<Definition>>, id: string)
    requires Owned(table, parts) && id in parts
    ensures forall i :: 0 <= i < |parts[id]| ==> parts[id][i].name in table
  {
    forall i | 0 <= i < |parts[id]| ensures parts[id][i].name in table {
      assert Holds(table, parts[id][i]);
    }
  }

  /** A deregistration cut short by the plugin repository keeps ownership iff the plugin gave nothing. */
  lemma StrippedOwnership(t: Tables, id: string)
    requires Inv(t) && id in t.plugins
    ensures var c := t.plugins[id];
            Inv(Stripped(t, c)) <==> c.actions == [] && c.capabilities == []
  {
    var c := t.plugins[id];
    var t' := Stripped(t, c);
    NothingNamed(t.actions, c.actions);
    NothingNamed(t.capabilities, c.capabilities);
    if Inv(t') {
      assert ActionsOf(t')[id] == c.actions && CapabilitiesOf(t')[id] == c.capabilities;
      OwnedNames(t'.actions, ActionsOf(t'), id);
      OwnedNames(t'.capabilities, CapabilitiesOf(t'), id);
    }
    if c.actions == [] && c.capabilities == [] {
      assert t' == t;
    }
  }

  /** Deregistering again, once the repository lets it, ends where the first attempt should have. */
  lemma RetryCompletes(t: Tables, id: string)
    requires id in t.plugins
    ensures Take(Stripped(t, t.plugins[id]), Deregister(id)) == Take(t, Deregister(id))
  {
    var c := t.plugins[id];
    DeleteTwice(t.actions, c.actions);
    DeleteTwice(t.capabilities, c.capabilities);
  }

  lemma DeleteTwice(table: map<string, Definition>, ds: seq<Definition>)
    ensures DeleteAll(DeleteAll(table, ds), ds) == DeleteAll(table, ds)
  {
  }
}
