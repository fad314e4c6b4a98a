/** The order of the calls of a bundle registration, and what it keeps whole at every moment. */
module CallOrder {
  import opened CompositionModel
  import opened Calls

  // ---- stages ----

  /** Executors come in first, then definitions, then the plugin; what has to be undone is undone behind that. */
  function Stage(call: Call): nat {
    match call
    case AddExecutor(side, _, _) => if side.Actions? then 0 else 1
    case Save(side, _) => if side.Actions? then 2 else 3
    case SavePlugin(_) => 4
    case Delete(side, _) => if side.Actions? then 5 else 6
    case DropExecutor(side, _) => if side.Actions? then 7 else 8
    case DeletePlugin(_) => 9
  }

  ghost predicate Between(calls: seq<Call>, low: nat, high: nat) {
    forall i | 0 <= i < |calls| :: low <= Stage(calls[i]) <= high
  }

  ghost predicate InStages(calls: seq<Call>) {
    forall i, j | 0 <= i < j < |calls| :: Stage(calls[i]) <= Stage(calls[j])
  }

  lemma StagesConcat(a: seq<Call>, b: seq<Call>, low: nat, mid: nat, next: nat, high: nat)
    requires InStages(a) && InStages(b) && Between(a, low, mid) && Between(b, next, high)
    requires low <= mid <= next <= high
    ensures InStages(a + b) && Between(a + b, low, high)
  {
    forall i | 0 <= i < |a + b| ensures low <= Stage((a + b)[i]) <= high {
      assert (a + b)[i] == if i < |a| then a[i] else b[i - |a|];
    }
  }

  lemma ListStages(side: Side, ds: seq<Definition>)
    ensures var n := if side.Actions? then 2 else 3; InStages(Saves(side, ds)) && Between(Saves(side, ds), n, n)
    ensures var n := if side.Actions? then 5 else 6; InStages(Deletes(side, ds)) && Between(Deletes(side, ds), n, n)
  {
  }

  lemma UndoingStages(a: seq<Definition>, k: seq<Definition>)
    ensures InStages(Undoing(a, k)) && Between(Undoing(a, k), 5, 6)
  {
    ListStages(Actions, a);
    ListStages(Capabilities, k);
    StagesConcat(Deletes(Actions, a), Deletes(Capabilities, k), 5, 5, 6, 6);
  }

  lemma SavingStages(c: Contribution, faults: Faults)
    ensures InStages(SavingCalls(c, faults)) && Between(SavingCalls(c, faults), 2, 6)
  {
    hide InStages, Between, Saves, Undoing, FirstIn;
    var a, k := FirstIn(faults.actions, c.actions), FirstIn(faults.capabilities, c.capabilities);
    if a < |c.actions| {
      ListStages(Actions, c.actions[..a]);
      UndoingStages(c.actions[..a], []);
      StagesConcat(Saves(Actions, c.actions[..a]), Undoing(c.actions[..a], []), 2, 2, 5, 6);
    } else {
      ListStages(Actions, c.actions);
      var too := if k < |c.capabilities| then c.capabilities[..k] else c.capabilities;
      ListStages(Capabilities, too);
      var last := if k < |c.capabilities| || faults.plugin then Undoing(c.actions, too) else [SavePlugin(c)];
      UndoingStages(c.actions, too);
      OneStage(SavePlugin(c));
      Widened(last, if k < |c.capabilities| || faults.plugin then 5 else 4);
      StagesConcat(Saves(Capabilities, too), last, 3, 3, 4, 6);
      StagesConcat(Saves(Actions, c.actions), Saves(Capabilities, too) + last, 2, 2, 3, 6);
    }
  }

  lemma OneStage(call: Call)
    ensures InStages([call]) && Between([call], Stage(call), Stage(call))
  {
  }

  lemma Widened(calls: seq<Call>, n: nat)
    ensures 4 <= n && (Between(calls, n, 6) || (n == 4 && Between(calls, 4, 4))) ==> Between(calls, 4, 6)
  {
  }

  lemma ExecutorStages(p: Parcel, actionRefs: seq<string>, capabilityRefs: seq<string>)
    requires Walk(actionRefs, p.actionExecutors.Keys) && Walk(capabilityRefs, p.capabilityExecutors.Keys)
    ensures var adds := PutCalls(p, actionRefs, capabilityRefs); InStages(adds) && Between(adds, 0, 1)
    ensures var drops := Drops(Actions, actionRefs) + Drops(Capabilities, capabilityRefs);
            InStages(drops) && Between(drops, 7, 8)
  {
    StagesConcat(Adds(Actions, actionRefs, p.actionExecutors),
                 Adds(Capabilities, capabilityRefs, p.capabilityExecutors), 0, 0, 1, 1);
    StagesConcat(Drops(Actions, actionRefs), Drops(Capabilities, capabilityRefs), 7, 7, 8, 8);
  }

  /** In every bundle registration, accepted or not, whatever fails, the calls come stage by stage. */
  lemma StageByStage(t: Tables, p: Parcel, active: bool, faults: Faults,
                     actionRefs: seq<string>, capabilityRefs: seq<string>)
    requires Walk(actionRefs, p.actionExecutors.Keys) && Walk(capabilityRefs, p.capabilityExecutors.Keys)
    ensures InStages(BundleCalls(t, p, active, faults, actionRefs, capabilityRefs))
  {
    hide InStages, Between, SavingCalls, PutCalls, Drops, Judge, Walk;
    var adds, mid := PutCalls(p, actionRefs, capabilityRefs), ContributionCalls(t, p.content, active, faults);
    var drops := Drops(Actions, actionRefs) + Drops(Capabilities, capabilityRefs);
    var last := if Judge(t, p.content, active, faults).Accepted? then [] else drops;
    ExecutorStages(p, actionRefs, capabilityRefs);
    SavingStages(p.content, faults);
    NoStages();
    StagesConcat(adds, mid, 0, 1, 2, 6);
    StagesConcat(adds + mid, last, 0, 6, 7, 8);
  }

  lemma NoStages()
    ensures InStages([]) && forall low: nat, high: nat :: Between([], low, high)
  {
  }

  // ---- plugins are whole ----

  /** Whoever finds a plugin finds everything it contributed, as it contributed it. */
  ghost predicate Whole(t: Tables) {
    forall id | id in t.plugins ::
      && (forall d | d in t.plugins[id].actions :: Holds(t.actions, d))
      && (forall d | d in t.plugins[id].capabilities :: Holds(t.capabilities, d))
  }

  /** A call that leaves plugins alone and touches definitions of this contribution only. */
  predicate Minds(c: Contribution, call: Call) {
    match call
    case Save(side, d) => Named(Definitions(side, c), d.name)
    case Delete(side, name) => Named(Definitions(side, c), name)
    case SavePlugin(_) => false
    case DeletePlugin(_) => false
    case _ => true
  }

  ghost predicate AllMind(c: Contribution, calls: seq<Call>) {
    forall i | 0 <= i < |calls| :: Minds(c, calls[i])
  }

  /** What was there before is there still. */
  ghost predicate Kept(w: Scene, v: Scene) {
    && v.tables.plugins == w.tables.plugins
    && (forall n | n in w.tables.actions :: n in v.tables.actions && v.tables.actions[n] == w.tables.actions[n])
    && (forall n | n in w.tables.capabilities ::
          n in v.tables.capabilities && v.tables.capabilities[n] == w.tables.capabilities[n])
  }

  lemma KeptWhole(w: Scene, v: Scene)
    requires Whole(w.tables) && Kept(w, v)
    ensures Whole(v.tables)
  {
    forall id | id in v.tables.plugins
      ensures forall d | d in v.tables.plugins[id].actions :: Holds(v.tables.actions, d)
      ensures forall d | d in v.tables.plugins[id].capabilities :: Holds(v.tables.capabilities, d)
    {
      forall d | d in v.tables.plugins[id].actions ensures Holds(v.tables.actions, d) {
        assert Holds(w.tables.actions, d);
      }
      forall d | d in v.tables.plugins[id].capabilities ensures Holds(v.tables.capabilities, d) {
        assert Holds(w.tables.capabilities, d);
      }
    }
  }

  lemma StepKeeps(c: Contribution, w: Scene, v: Scene, call: Call)
    requires Kept(w, v) && Minds(c, call)
    requires Free(w.tables.actions, c.actions) && Free(w.tables.capabilities, c.capabilities)
    ensures Kept(w, Do(v, call))
  {
  }

  lemma {:induction false} MindingKeeps(c: Contribution, w: Scene, calls: seq<Call>)
    requires AllMind(c, calls)
    requires Free(w.tables.actions, c.actions) && Free(w.tables.capabilities, c.capabilities)
    ensures Kept(w, DoAll(w, calls))
  {
    hide Minds, Kept, Free;
    if calls == [] {
      KeptAtFirst(w);
    } else {
      var n := |calls| - 1;
      MindingKeeps(c, w, calls[..n]);
      StepKeeps(c, w, DoAll(w, calls[..n]), calls[n]);
    }
  }

  lemma KeptAtFirst(w: Scene)
    ensures Kept(w, w)
  {
  }

  lemma ListsMind(c: Contribution, side: Side, n: nat)
    requires n <= |Definitions(side, c)|
    ensures AllMind(c, Saves(side, Definitions(side, c)[..n])) && AllMind(c, Deletes(side, Definitions(side, c)[..n]))
  {
    var ds := Definitions(side, c);
    forall i | 0 <= i < n ensures Named(ds, ds[..n][i].name) {
      assert ds[i].name == ds[..n][i].name;
    }
  }

  lemma MindConcat(c: Contribution, a: seq<Call>, b: seq<Call>)
    requires AllMind(c, a) && AllMind(c, b)
    ensures AllMind(c, a + b)
  {
  }

  lemma UndoingMinds(c: Contribution, n: nat, m: nat)
    requires n <= |c.actions| && m <= |c.capabilities|
    ensures AllMind(c, Undoing(c.actions[..n], c.capabilities[..m]))
  {
    ListsMind(c, Actions, n);
    ListsMind(c, Capabilities, m);
    MindConcat(c, Deletes(Actions, c.actions[..n]), Deletes(Capabilities, c.capabilities[..m]));
  }

  /** The saves of a registration and their rollback mind its own definitions; only its last call shows the plugin. */
  lemma SavingMinds(c: Contribution, faults: Faults)
    ensures Saving(c, faults).Refused? ==> AllMind(c, SavingCalls(c, faults))
    ensures Saving(c, faults).Accepted? ==>
              var saves := Saves(Actions, c.actions) + Saves(Capabilities, c.capabilities);
              AllMind(c, saves) && SavingCalls(c, faults) == saves + [SavePlugin(c)]
  {
    hide AllMind, Undoing, Saves, FirstIn;
    var a, k := FirstIn(faults.actions, c.actions), FirstIn(faults.capabilities, c.capabilities);
    var all, too := |c.actions|, |c.capabilities|;
    assert c.actions[..all] == c.actions && c.capabilities[..too] == c.capabilities && c.capabilities[..0] == [];
    ListsMind(c, Actions, a);
    ListsMind(c, Actions, all);
    ListsMind(c, Capabilities, k);
    ListsMind(c, Capabilities, too);
    UndoingMinds(c, a, 0);
    UndoingMinds(c, all, k);
    var saves := Saves(Actions, c.actions) + Saves(Capabilities, c.capabilities);
    MindConcat(c, Saves(Actions, c.actions[..a]), Undoing(c.actions[..a], []));
    MindConcat(c, Saves(Actions, c.actions), Saves(Capabilities, c.capabilities[..k]));
    MindConcat(c, Saves(Actions, c.actions) + Saves(Capabilities, c.capabilities[..k]),
               Undoing(c.actions, c.capabilities[..k]));
    assert Saves(Actions, c.actions) + Saves(Capabilities, c.capabilities[..k])
           + Undoing(c.actions, c.capabilities[..k])
        == Saves(Actions, c.actions)
           + (Saves(Capabilities, c.capabilities[..k]) + Undoing(c.actions, c.capabilities[..k]));
    assert saves + [SavePlugin(c)]
        == Saves(Actions, c.actions) + (Saves(Capabilities, c.capabilities) + [SavePlugin(c)]);
  }

  lemma MindedPrefix(c: Contribution, w: Scene, calls: seq<Call>, n: nat)
    requires AllMind(c, calls) && n <= |calls| && Whole(w.tables)
    requires Free(w.tables.actions, c.actions) && Free(w.tables.capabilities, c.capabilities)
    ensures Whole(DoAll(w, calls[..n]).tables)
  {
    hide Minds, DoAll, Free, Whole, Kept;
    MindingKeeps(c, w, calls[..n]);
    KeptWhole(w, DoAll(w, calls[..n]));
  }

  lemma ExecutorsMind(c: Contribution, p: Parcel, actionRefs: seq<string>, capabilityRefs: seq<string>)
    requires Walk(actionRefs, p.actionExecutors.Keys) && Walk(capabilityRefs, p.capabilityExecutors.Keys)
    ensures AllMind(c, PutCalls(p, actionRefs, capabilityRefs))
    ensures AllMind(c, Drops(Actions, actionRefs) + Drops(Capabilities, capabilityRefs))
  {
  }

  lemma InvWhole(t: Tables)
    requires Inv(t)
    ensures Whole(t)
  {
    forall id | id in t.plugins
      ensures forall d | d in t.plugins[id].actions :: Holds(t.actions, d)
      ensures forall d | d in t.plugins[id].capabilities :: Holds(t.capabilities, d)
    {
      assert ActionsOf(t)[id] == t.plugins[id].actions && CapabilitiesOf(t)[id] == t.plugins[id].capabilities;
      forall d | d in t.plugins[id].actions ensures Holds(t.actions, d) {
        var i :| 0 <= i < |t.plugins[id].actions| && t.plugins[id].actions[i] == d;
        assert Holds(t.actions, ActionsOf(t)[id][i]);
      }
      forall d | d in t.plugins[id].capabilities ensures Holds(t.capabilities, d) {
        var i :| 0 <= i < |t.plugins[id].capabilities| && t.plugins[id].capabilities[i] == d;
        assert Holds(t.capabilities, CapabilitiesOf(t)[id][i]);
      }
    }
  }

  lemma ConflictFree(t: Tables, c: Contribution)
    requires Conflict(t, c).Accepted?
    ensures Free(t.actions, c.actions) && Free(t.capabilities, c.capabilities)
  {
  }

  /** A refused registration minds a contribution with free names throughout. */
  lemma RefusedMinds(w: Scene, p: Parcel, active: bool, faults: Faults,
                     actionRefs: seq<string>, capabilityRefs: seq<string>) returns (c: Contribution)
    requires Walk(actionRefs, p.actionExecutors.Keys) && Walk(capabilityRefs, p.capabilityExecutors.Keys)
    requires Judge(w.tables, p.content, active, faults).Refused?
    ensures AllMind(c, BundleCalls(w.tables, p, active, faults, actionRefs, capabilityRefs))
    ensures Free(w.tables.actions, c.actions) && Free(w.tables.capabilities, c.capabilities)
  {
    hide AllMind, Conflict, Activation, Saving, SavingCalls, PutCalls, Drops, Free, Walk;
    var adds := PutCalls(p, actionRefs, capabilityRefs);
    var drops := Drops(Actions, actionRefs) + Drops(Capabilities, capabilityRefs);
    var mid := ContributionCalls(w.tables, p.content, active, faults);
    if mid == [] {
      c := Contribution(p.content.id, [], []);
      NothingMinded(w.tables, c);
    } else {
      c := p.content;
      ConflictFree(w.tables, c);
      SavingMinds(c, faults);
    }
    ExecutorsMind(c, p, actionRefs, capabilityRefs);
    MindConcat(c, adds, mid);
    MindConcat(c, adds + mid, drops);
  }

  lemma NothingMinded(t: Tables, c: Contribution)
    requires c.actions == [] && c.capabilities == []
    ensures AllMind(c, []) && Free(t.actions, c.actions) && Free(t.capabilities, c.capabilities)
  {
  }

  /** An accepted one minds its own until its last call, which shows the plugin. */
  lemma AcceptedMinds(w: Scene, p: Parcel, active: bool, faults: Faults,
                      actionRefs: seq<string>, capabilityRefs: seq<string>) returns (quiet: seq<Call>)
    requires Walk(actionRefs, p.actionExecutors.Keys) && Walk(capabilityRefs, p.capabilityExecutors.Keys)
    requires Judge(w.tables, p.content, active, faults).Accepted?
    ensures AllMind(p.content, quiet)
    ensures BundleCalls(w.tables, p, active, faults, actionRefs, capabilityRefs) == quiet + [SavePlugin(p.content)]
  {
    hide AllMind, Conflict, Activation, Saving, SavingCalls, PutCalls, Saves, Walk;
    var adds := PutCalls(p, actionRefs, capabilityRefs);
    var saves := Saves(Actions, p.content.actions) + Saves(Capabilities, p.content.capabilities);
    SavingMinds(p.content, faults);
    ExecutorsMind(p.content, p, actionRefs, capabilityRefs);
    MindConcat(p.content, adds, saves);
    quiet := adds + saves;
    assert adds + (saves + [SavePlugin(p.content)]) + [] == quiet + [SavePlugin(p.content)];
  }

  /** Before, after and between any two calls of a bundle registration, registered plugins are whole. */
  lemma EveryMomentWhole(w: Scene, p: Parcel, active: bool, faults: Faults,
                         actionRefs: seq<string>, capabilityRefs: seq<string>, n: nat)
    requires Inv(w.tables) && Complete(p)
    requires Walk(actionRefs, p.actionExecutors.Keys) && Walk(capabilityRefs, p.capabilityExecutors.Keys)
    requires n <= |BundleCalls(w.tables, p, active, faults, actionRefs, capabilityRefs)|
    ensures Whole(DoAll(w, BundleCalls(w.tables, p, active, faults, actionRefs, capabilityRefs)[..n]).tables)
  {
    hide AllMind, DoAll, Judge, Inv, Whole, Walk, BundleCalls, Free, Added, WellFormed;
    var calls := BundleCalls(w.tables, p, active, faults, actionRefs, capabilityRefs);
    InvWhole(w.tables);
    if Judge(w.tables, p.content, active, faults).Refused? {
      var c := RefusedMinds(w, p, active, faults, actionRefs, capabilityRefs);
      MindedPrefix(c, w, calls, n);
    } else {
      AcceptedIsFree(w.tables, p.content, active, faults);
      var quiet := AcceptedMinds(w, p, active, faults, actionRefs, capabilityRefs);
      if n < |calls| {
        assert calls[..n] == quiet[..n];
        MindedPrefix(p.content, w, quiet, n);
      } else {
        assert calls[..n] == calls;
        BundleEffect(w, p, active, faults, actionRefs, capabilityRefs);
        AddKeeps(w.tables, p.content);
        InvWhole(Added(w.tables, p.content));
      }
    }
  }
}
