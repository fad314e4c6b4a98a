/** The composition service: saves, deletes and their rollback, as the program performs them. */
module Composition {
  import opened CompositionModel
  import opened Calls

  class PluginContribution {
    const content: Contribution
    var active: bool

    /** Pending, with the checks NewPluginContribution has made. */
    constructor (content: Contribution)
      requires WellFormed(content)
      ensures this.content == content && !active
    {
      this.content, active := content, false;
    }

    method Activate() returns (v: Verdict)
      modifies this
      ensures v == Activation(content, old(active))
      ensures active == (old(active) || v.Accepted?)
      ensures v.Accepted? <==> !old(active) && forall d | d in content.actions + content.capabilities :: d.ref != ""
    {
      if active {
        return Refused(AlreadyActive);
      }
      var i := 0;
      while i < |content.actions|
        invariant 0 <= i <= |content.actions|
        invariant FirstUnbound(content.actions) == i + FirstUnbound(content.actions[i..])
      {
        if content.actions[i].ref == "" {
          return Refused(UnboundAction(content.actions[i].name));
        }
        assert content.actions[i..][1..] == content.actions[i + 1..];
        i := i + 1;
      }
      i := 0;
      while i < |content.capabilities|
        invariant 0 <= i <= |content.capabilities|
        invariant FirstUnbound(content.capabilities) == i + FirstUnbound(content.capabilities[i..])
      {
        if content.capabilities[i].ref == "" {
          return Refused(UnboundCapability(content.capabilities[i].name));
        }
        assert content.capabilities[i..][1..] == content.capabilities[i + 1..];
        i := i + 1;
      }
      active := true;
      return Accepted;
    }
  }

  /** No two of the first n definitions share a name, as a set of seen names finds out. */
  method NoDuplicates(ds: seq<Definition>) returns (distinct: bool)
    ensures distinct <==> forall i, j :: 0 <= i < j < |ds| ==> ds[i].name != ds[j].name
  {
    var names: set<string> := {};
    for i := 0 to |ds|
      invariant Distinct(ds[..i])
      invariant forall n :: n in names <==> Named(ds[..i], n)
    {
      if ds[i].name in names {
        var j :| 0 <= j < i && ds[..i][j].name == ds[i].name;
        assert ds[j].name == ds[i].name;
        return false;
      }
      var before := ds[..i];
      var after := ds[..i + 1];
      assert after == before + [ds[i]];
      forall n ensures n in names + {ds[i].name} <==> Named(after, n) {
        if Named(before, n) {
          var j :| 0 <= j < i && before[j].name == n;
          assert after[j].name == n;
        }
        assert after[i].name == ds[i].name;
      }
      assert forall j :: 0 <= j < i ==> before[j].name == after[j].name;
      assert forall j :: 0 <= j < i ==> Named(before, before[j].name);
      names := names + {ds[i].name};
    }
    assert ds[..|ds|] == ds;
    return true;
  }

  /** NewPluginContribution. */
  method NewPluginContribution(content: Contribution) returns (c: PluginContribution?)
    ensures c != null <==> WellFormed(content)
    ensures c != null <==>
            && content.id != ""
            && (forall i, j :: 0 <= i < j < |content.actions| ==> content.actions[i].name != content.actions[j].name)
            && (forall i, j :: 0 <= i < j < |content.capabilities| ==>
                  content.capabilities[i].name != content.capabilities[j].name)
    ensures c != null ==> fresh(c) && c.content == content && !c.active
  {
    if content.id == "" {
      return null;
    }
    var actionsDistinct := NoDuplicates(content.actions);
    if !actionsDistinct {
      return null;
    }
    var capabilitiesDistinct := NoDuplicates(content.capabilities);
    if !capabilitiesDistinct {
      return null;
    }
    c := new PluginContribution(content);
  }

  datatype Removal = NotFound | DeleteFailed | Removed | RemovedButCloseFailed

  datatype Registration = InitFailed | ContributeFailed | Judged(verdict: Verdict)

  /** A plugin as RegisterPluginWithConfig sees it; `handle` stands for the instance kept for Close. */
  class Plugin {
    const handle: int
    const lifecycle: bool
    const initFails: bool
    const contribution: PluginContribution?

    constructor (handle: int, lifecycle: bool, initFails: bool, contribution: PluginContribution?)
      ensures this.handle == handle && this.lifecycle == lifecycle && this.initFails == initFails
      ensures this.contribution == contribution
    {
      this.handle, this.lifecycle, this.initFails, this.contribution := handle, lifecycle, initFails, contribution;
    }
  }

  class CompositionService {
    const journal: Journal
    var actions: map<string, Definition>
    var capabilities: map<string, Definition>
    var plugins: map<string, PluginContribution>
    var lifecycles: map<string, int>

    /**
     * Plugins are filed under their own IDs, with the checks of NewPluginContribution behind them, and the
     * repositories are as the calls on record have left them.
     */
    ghost predicate Valid()
      reads this, journal
    {
      && (forall id :: id in plugins ==> plugins[id].content.id == id && WellFormed(plugins[id].content))
      && journal.scene.tables == View()
    }

    constructor (journal: Journal)
      requires journal.scene.tables == Tables(map[], map[], map[])
      ensures Valid() && this.journal == journal
      ensures View() == Tables(map[], map[], map[]) && lifecycles == map[]
    {
      this.journal := journal;
      actions, capabilities, plugins, lifecycles := map[], map[], map[], map[];
    }

    ghost function View(): Tables
      reads this
    {
      Tables(actions, capabilities, map id | id in plugins :: plugins[id].content)
    }

    method SaveAction(d: Definition, bad: set<string>) returns (ok: bool)
      requires Valid()
      modifies this`actions, journal
      ensures Valid()
      ensures ok <==> d.name !in bad
      ensures journal.Since(old(journal.scene), old(journal.calls), if ok then [Save(Actions, d)] else [])
    {
      ok := d.name !in bad;
      SinceNothing(journal);
      if ok {
        actions := actions[d.name := d];
        journal.Note(Save(Actions, d));
      }
    }

    method SaveCapability(d: Definition, bad: set<string>) returns (ok: bool)
      requires Valid()
      modifies this`capabilities, journal
      ensures Valid()
      ensures ok <==> d.name !in bad
      ensures journal.Since(old(journal.scene), old(journal.calls), if ok then [Save(Capabilities, d)] else [])
    {
      ok := d.name !in bad;
      SinceNothing(journal);
      if ok {
        capabilities := capabilities[d.name := d];
        journal.Note(Save(Capabilities, d));
      }
    }

    method DeleteAction(name: string)
      requires Valid()
      modifies this`actions, journal
      ensures Valid()
      ensures journal.Since(old(journal.scene), old(journal.calls), [Delete(Actions, name)])
    {
      actions := actions - {name};
      journal.Note(Delete(Actions, name));
    }

    method DeleteCapability(name: string)
      requires Valid()
      modifies this`capabilities, journal
      ensures Valid()
      ensures journal.Since(old(journal.scene), old(journal.calls), [Delete(Capabilities, name)])
    {
      capabilities := capabilities - {name};
      journal.Note(Delete(Capabilities, name));
    }

    /** The conflict checks. */
    method CheckConflicts(c: Contribution) returns (v: Verdict)
      ensures v == Conflict(View(), c)
    {
      if c.id in plugins {
        return Refused(AlreadyRegistered);
      }
      for i := 0 to |c.actions|
        invariant FirstIn(actions.Keys, c.actions) == i + FirstIn(actions.Keys, c.actions[i..])
      {
        if c.actions[i].name in actions {
          return Refused(ActionTaken(c.actions[i].name));
        }
        assert c.actions[i..][1..] == c.actions[i + 1..];
      }
      for i := 0 to |c.capabilities|
        invariant FirstIn(capabilities.Keys, c.capabilities) == i + FirstIn(capabilities.Keys, c.capabilities[i..])
      {
        if c.capabilities[i].name in capabilities {
          return Refused(CapabilityTaken(c.capabilities[i].name));
        }
        assert c.capabilities[i..][1..] == c.capabilities[i + 1..];
      }
      return Accepted;
    }

    method SaveActions(ds: seq<Definition>, bad: set<string>) returns (saved: nat)
      requires Valid()
      modifies this`actions, journal
      ensures Valid()
      ensures saved == FirstIn(bad, ds)
      ensures journal.Since(old(journal.scene), old(journal.calls), Saves(Actions, ds[..saved]))
    {
      hide FirstIn, DoAll;
      ghost var scene0, calls0 := journal.scene, journal.calls;
      saved := 0;
      assert ds[0..] == ds;
      NothingMade(journal, Saves(Actions, ds[..0]));
      while saved < |ds|
        invariant Valid()
        invariant 0 <= saved <= |ds|
        invariant FirstIn(bad, ds) == saved + FirstIn(bad, ds[saved..])
        invariant journal.Since(scene0, calls0, Saves(Actions, ds[..saved]))
      {
        FirstInStep(bad, ds, saved);
        var ok := SaveAction(ds[saved], bad);
        if !ok {
          NothingMore(journal, scene0, calls0, Saves(Actions, ds[..saved]));
          return;
        }
        SinceThen(journal, scene0, calls0, Saves(Actions, ds[..saved]), [Save(Actions, ds[saved])]);
        assert Saves(Actions, ds[..saved + 1]) == Saves(Actions, ds[..saved]) + [Save(Actions, ds[saved])];
        saved := saved + 1;
      }
      FirstInStep(bad, ds, saved);
    }

    method SaveCapabilities(ds: seq<Definition>, bad: set<string>) returns (saved: nat)
      requires Valid()
      modifies this`capabilities, journal
      ensures Valid()
      ensures saved == FirstIn(bad, ds)
      ensures journal.Since(old(journal.scene), old(journal.calls), Saves(Capabilities, ds[..saved]))
    {
      hide FirstIn, DoAll;
      ghost var scene0, calls0 := journal.scene, journal.calls;
      saved := 0;
      assert ds[0..] == ds;
      NothingMade(journal, Saves(Capabilities, ds[..0]));
      while saved < |ds|
        invariant Valid()
        invariant 0 <= saved <= |ds|
        invariant FirstIn(bad, ds) == saved + FirstIn(bad, ds[saved..])
        invariant journal.Since(scene0, calls0, Saves(Capabilities, ds[..saved]))
      {
        FirstInStep(bad, ds, saved);
        var ok := SaveCapability(ds[saved], bad);
        if !ok {
          NothingMore(journal, scene0, calls0, Saves(Capabilities, ds[..saved]));
          return;
        }
        SinceThen(journal, scene0, calls0, Saves(Capabilities, ds[..saved]), [Save(Capabilities, ds[saved])]);
        assert Saves(Capabilities, ds[..saved + 1])
            == Saves(Capabilities, ds[..saved]) + [Save(Capabilities, ds[saved])];
        saved := saved + 1;
      }
      FirstInStep(bad, ds, saved);
    }

    method DeleteActions(saved: seq<Definition>)
      requires Valid()
      modifies this`actions, journal
      ensures Valid()
      ensures journal.Since(old(journal.scene), old(journal.calls), Deletes(Actions, saved))
    {
      hide DoAll;
      ghost var scene0, calls0 := journal.scene, journal.calls;
      NothingMade(journal, Deletes(Actions, saved[..0]));
      for i := 0 to |saved|
        invariant Valid()
        invariant journal.Since(scene0, calls0, Deletes(Actions, saved[..i]))
      {
        DeleteAction(saved[i].name);
        SinceThen(journal, scene0, calls0, Deletes(Actions, saved[..i]), [Delete(Actions, saved[i].name)]);
        assert Deletes(Actions, saved[..i + 1]) == Deletes(Actions, saved[..i]) + [Delete(Actions, saved[i].name)];
      }
      assert saved[..|saved|] == saved;
    }

    method DeleteCapabilities(saved: seq<Definition>)
      requires Valid()
      modifies this`capabilities, journal
      ensures Valid()
      ensures journal.Since(old(journal.scene), old(journal.calls), Deletes(Capabilities, saved))
    {
      hide DoAll;
      ghost var scene0, calls0 := journal.scene, journal.calls;
      NothingMade(journal, Deletes(Capabilities, saved[..0]));
      for i := 0 to |saved|
        invariant Valid()
        invariant journal.Since(scene0, calls0, Deletes(Capabilities, saved[..i]))
      {
        DeleteCapability(saved[i].name);
        SinceThen(journal, scene0, calls0, Deletes(Capabilities, saved[..i]), [Delete(Capabilities, saved[i].name)]);
        assert Deletes(Capabilities, saved[..i + 1])
            == Deletes(Capabilities, saved[..i]) + [Delete(Capabilities, saved[i].name)];
      }
      assert saved[..|saved|] == saved;
    }

    /** The deferred rollback: what was saved is deleted, name by name. */
    method Rollback(savedActions: seq<Definition>, savedCapabilities: seq<Definition>)
      requires Valid()
      modifies this`actions, this`capabilities, journal
      ensures Valid()
      ensures journal.Since(old(journal.scene), old(journal.calls), Undoing(savedActions, savedCapabilities))
    {
      hide DoAll;
      DeleteActions(savedActions);
      DeleteCapabilities(savedCapabilities);
      SinceThen(journal, old(journal.scene), old(journal.calls),
                Deletes(Actions, savedActions), Deletes(Capabilities, savedCapabilities));
    }

    /** Conflicts, then activation, then the saves. */
    method RegisterContribution(c: PluginContribution, faults: Faults) returns (v: Verdict)
      requires Valid() && WellFormed(c.content)
      modifies this`actions, this`capabilities, this`plugins, journal, c
      ensures Valid()
      ensures v == Judge(old(View()), c.content, old(c.active), faults)
      ensures journal.Since(old(journal.scene), old(journal.calls),
                            ContributionCalls(old(View()), c.content, old(c.active), faults))
      ensures View() == if v.Accepted? then Added(old(View()), c.content) else old(View())
      ensures Inv(old(View())) ==> Inv(View())
      ensures v.Accepted? ==> c.content.id in plugins && plugins[c.content.id] == c
      ensures c.active == (old(c.active) || (Conflict(old(View()), c.content).Accepted?
                                             && Activation(c.content, false).Accepted?))
    {
      hide Conflict, Activation, Saving, SavingCalls, DoAll, Added, Inv, WellFormed;
      ContributionEffect(journal.scene, c.content, c.active, faults);
      RegisterKeeps(View(), c.content, c.active, faults);
      SinceNothing(journal);
      v := CheckConflicts(c.content);
      if v.Refused? {
        return;
      }
      v := c.Activate();
      if v.Refused? {
        return;
      }
      v := SaveContribution(c, faults);
    }

    /** The saves, undone when one of them fails. */
    method SaveContribution(c: PluginContribution, faults: Faults) returns (v: Verdict)
      requires Valid() && WellFormed(c.content)
      modifies this`actions, this`capabilities, this`plugins, journal
      ensures Valid()
      ensures v == Saving(c.content, faults)
      ensures journal.Since(old(journal.scene), old(journal.calls), SavingCalls(c.content, faults))
      ensures v.Accepted? ==> c.content.id in plugins && plugins[c.content.id] == c
    {
      hide DoAll, Saves, Undoing, FirstIn;
      ghost var scene0, calls0 := journal.scene, journal.calls;
      var as_, ks := c.content.actions, c.content.capabilities;
      assert as_[..|as_|] == as_ && ks[..|ks|] == ks;
      var savedActions := SaveActions(as_, faults.actions);
      if savedActions < |as_| {
        Rollback(as_[..savedActions], []);
        SinceThen(journal, scene0, calls0, Saves(Actions, as_[..savedActions]), Undoing(as_[..savedActions], []));
        return Refused(ActionSaveFailed(as_[savedActions].name));
      }
      ghost var made := Saves(Actions, as_);
      var savedCapabilities := SaveCapabilities(ks, faults.capabilities);
      ghost var too := Saves(Capabilities, ks[..savedCapabilities]);
      SinceThen(journal, scene0, calls0, made, too);
      if savedCapabilities < |ks| {
        Rollback(as_, ks[..savedCapabilities]);
        SinceThen(journal, scene0, calls0, made + too, Undoing(as_, ks[..savedCapabilities]));
        assert made + too + Undoing(as_, ks[..savedCapabilities])
            == made + (too + Undoing(as_, ks[..savedCapabilities]));
        return Refused(CapabilitySaveFailed(ks[savedCapabilities].name));
      }
      if faults.plugin {
        Rollback(as_, ks);
        SinceThen(journal, scene0, calls0, made + too, Undoing(as_, ks));
        assert made + too + Undoing(as_, ks) == made + (too + Undoing(as_, ks));
        return Refused(PluginSaveFailed);
      }
      KeepPlugin(c);
      SinceThen(journal, scene0, calls0, made + too, [SavePlugin(c.content)]);
      assert made + too + [SavePlugin(c.content)] == made + (too + [SavePlugin(c.content)]);
      return Accepted;
    }

    /** The plugin repository's Save. */
    method KeepPlugin(c: PluginContribution)
      requires Valid() && WellFormed(c.content)
      modifies this`plugins, journal
      ensures Valid()
      ensures plugins == old(plugins)[c.content.id := c]
      ensures journal.Since(old(journal.scene), old(journal.calls), [SavePlugin(c.content)])
    {
      plugins := plugins[c.content.id := c];
      journal.Note(SavePlugin(c.content));
      assert View().plugins == old(View()).plugins[c.content.id := c.content];
    }

    /** The plugin repository's Delete. */
    method ForgetPlugin(id: string)
      requires Valid()
      modifies this`plugins, journal
      ensures Valid()
      ensures plugins == old(plugins) - {id}
      ensures journal.Since(old(journal.scene), old(journal.calls), [DeletePlugin(id)])
    {
      plugins := plugins - {id};
      journal.Note(DeletePlugin(id));
      assert View().plugins == old(View()).plugins - {id};
    }

    /** `refused` is the plugin repository's answer to the delete: the actions and capabilities are gone by then. */
    method DeregisterPlugin(id: string, refused: bool, closeFails: bool) returns (r: Removal, closed: bool)
      requires Valid()
      modifies this, journal
      ensures Valid()
      ensures journal.Since(old(journal.scene), old(journal.calls),
                            if id !in old(plugins) then []
                            else
                              var c := old(View()).plugins[id];
                              if refused then Undoing(c.actions, c.capabilities) else DeregisterCalls(c))
      ensures View() == if id in old(plugins) && refused then Stripped(old(View()), old(View()).plugins[id])
                        else Take(old(View()), Deregister(id))
      ensures Inv(old(View())) && !r.DeleteFailed? ==> Inv(View())
      ensures r.NotFound? <==> id !in old(plugins)
      ensures r.DeleteFailed? <==> id in old(plugins) && refused
      ensures closed <==> id in old(plugins) && !refused && id in old(lifecycles)
      ensures r.RemovedButCloseFailed? <==> closed && closeFails
      ensures lifecycles == if id in old(plugins) && !refused then old(lifecycles) - {id} else old(lifecycles)
    {
      hide Inv, Owned, DoAll, Undoing, WellFormed, DeleteAll;
      ghost var before, scene0, calls0 := View(), journal.scene, journal.calls;
      if Inv(before) {
        TakeKeeps(before, Deregister(id));
      }
      SinceNothing(journal);
      if id !in plugins {
        return NotFound, false;
      }
      var c := plugins[id].content;
      DeregisterEffect(scene0, c);
      Rollback(c.actions, c.capabilities);
      if refused {
        return DeleteFailed, false;
      }
      ForgetPlugin(id);
      SinceThen(journal, scene0, calls0, Undoing(c.actions, c.capabilities), [DeletePlugin(id)]);
      if id in lifecycles {
        lifecycles := lifecycles - {id};
        if closeFails {
          return RemovedButCloseFailed, true;
        }
        return Removal.Removed, true;
      }
      assert lifecycles == lifecycles - {id};
      return Removal.Removed, false;
    }

    method RegisterPluginWithConfig(p: Plugin, faults: Faults) returns (r: Registration)
      requires Valid() && (p.contribution != null ==> WellFormed(p.contribution.content))
      modifies this, journal, if p.contribution == null then {} else {p.contribution}
      ensures Valid()
      ensures r.InitFailed? <==> p.lifecycle && p.initFails
      ensures r.ContributeFailed? <==> !(p.lifecycle && p.initFails) && p.contribution == null
      ensures r.Judged? ==> r.verdict == Judge(old(View()), p.contribution.content, old(p.contribution.active), faults)
      ensures View() == if r.Judged? && r.verdict.Accepted? then Added(old(View()), p.contribution.content)
                        else old(View())
      ensures Inv(old(View())) ==> Inv(View())
      ensures lifecycles == if r.Judged? && r.verdict.Accepted? && p.lifecycle
                            then old(lifecycles)[p.contribution.content.id := p.handle] else old(lifecycles)
    {
      hide DoAll, Judge, Added, Inv, ContributionCalls;
      if p.lifecycle && p.initFails {
        return InitFailed;
      }
      if p.contribution == null {
        return ContributeFailed;
      }
      var v := RegisterContribution(p.contribution, faults);
      if v.Refused? {
        return Judged(v);
      }
      if p.lifecycle {
        lifecycles := lifecycles[p.contribution.content.id := p.handle];
      }
      return Judged(v);
    }
  }

  lemma NothingMade(j: Journal, none: seq<Call>)
    requires none == []
    ensures j.Since(j.scene, j.calls, none)
  {
  }

  lemma NothingMore(j: Journal, scene0: Scene, calls0: seq<Call>, made: seq<Call>)
    requires j.Since(DoAll(scene0, made), calls0 + made, [])
    ensures j.Since(scene0, calls0, made)
  {
  }

  lemma RegisterKeeps(t: Tables, c: Contribution, active: bool, faults: Faults)
    requires WellFormed(c)
    ensures Inv(t) && Judge(t, c, active, faults).Accepted? ==> Inv(Added(t, c))
  {
    hide Inv, Judge, Added;
    if Inv(t) && Judge(t, c, active, faults).Accepted? {
      AcceptedIsFree(t, c, active, faults);
      AddKeeps(t, c);
    }
  }

  lemma FirstInStep(bad: set<string>, ds: seq<Definition>, i: nat)
    requires i <= |ds|
    ensures FirstIn(bad, ds[i..]) ==
              if i == |ds| || ds[i].name in bad then 0 else 1 + FirstIn(bad, ds[i + 1..])
  {
    assert i < |ds| ==> ds[i..][1..] == ds[i + 1..];
  }
}
