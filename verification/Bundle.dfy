/** Bundles: a contribution registered together with the executors its definitions refer to. */
module Bundle {
  import opened CompositionModel
  import opened Calls
  import opened Composition

  class ExecutorRegistry {
    const side: Side
    const journal: Journal
    var executors: Executors

    /** The registry is as the calls on record have left it. */
    ghost predicate Valid()
      reads this, journal
    {
      executors == Registry(side, journal.scene)
    }

    constructor (side: Side, journal: Journal)
      requires Registry(side, journal.scene) == map[]
      ensures Valid() && this.side == side && this.journal == journal && executors == map[]
    {
      this.side, this.journal, executors := side, journal, map[];
    }

    method Register(ref: string, executor: int)
      requires Valid()
      modifies this, journal
      ensures Valid() && executors == old(executors)[ref := executor]
      ensures journal.Since(old(journal.scene), old(journal.calls), [AddExecutor(side, ref, executor)])
    {
      executors := executors[ref := executor];
      journal.Note(AddExecutor(side, ref, executor));
    }

    method Unregister(ref: string)
      requires Valid()
      modifies this, journal
      ensures Valid() && executors == old(executors) - {ref}
      ensures journal.Since(old(journal.scene), old(journal.calls), [DropExecutor(side, ref)])
    {
      executors := executors - {ref};
      journal.Note(DropExecutor(side, ref));
    }
  }

  class PluginBundle {
    const contribution: PluginContribution
    const actionExecutors: Executors
    const capabilityExecutors: Executors

    function Value(): Parcel {
      Parcel(contribution.content, actionExecutors, capabilityExecutors)
    }

    constructor (contribution: PluginContribution, actionExecutors: Executors, capabilityExecutors: Executors)
      ensures this.contribution == contribution
      ensures this.actionExecutors == actionExecutors && this.capabilityExecutors == capabilityExecutors
    {
      this.contribution := contribution;
      this.actionExecutors, this.capabilityExecutors := actionExecutors, capabilityExecutors;
    }
  }

  method AllPaired(ds: seq<Definition>, executors: Executors) returns (paired: bool)
    ensures paired <==> Paired(ds, executors)
  {
    for i := 0 to |ds|
      invariant Paired(ds[..i], executors)
    {
      if ds[i].ref == "" {
        continue;
      }
      if ds[i].ref !in executors {
        return false;
      }
    }
    assert ds[..|ds|] == ds;
    return true;
  }

  method NewPluginBundle(c: PluginContribution?, actionExecutors: Executors, capabilityExecutors: Executors)
    returns (b: PluginBundle?)
    requires c != null ==> WellFormed(c.content)
    ensures b != null <==> c != null && Complete(Parcel(c.content, actionExecutors, capabilityExecutors))
    ensures b == null <==> c == null || exists d :: (d in c.content.actions && d.ref !in actionExecutors && d.ref != "")
                                                 || (d in c.content.capabilities && d.ref !in capabilityExecutors
                                                     && d.ref != "")
    ensures b != null ==> b.contribution == c && b.Value() == Parcel(c.content, actionExecutors, capabilityExecutors)
  {
    if c == null {
      return null;
    }
    var actionsPaired := AllPaired(c.content.actions, actionExecutors);
    if !actionsPaired {
      return null;
    }
    var capabilitiesPaired := AllPaired(c.content.capabilities, capabilityExecutors);
    if !capabilitiesPaired {
      return null;
    }
    b := new PluginBundle(c, actionExecutors, capabilityExecutors);
  }

  /** Registers every executor of a map in some order of its own, which it remembers. */
  method RegisterAll(reg: ExecutorRegistry, more: Executors) returns (registered: seq<string>)
    requires reg.Valid()
    modifies reg, reg.journal
    ensures reg.Valid() && Walk(registered, more.Keys)
    ensures reg.journal.Since(old(reg.journal.scene), old(reg.journal.calls), Adds(reg.side, registered, more))
  {
    hide DoAll;
    ghost var scene0, calls0 := reg.journal.scene, reg.journal.calls;
    registered := [];
    var rest := more.Keys;
    NothingMade(reg.journal, Adds(reg.side, [], more));
    while rest != {}
      invariant reg.Valid()
      invariant rest <= more.Keys
      invariant Walk(registered, more.Keys - rest)
      invariant reg.journal.Since(scene0, calls0, Adds(reg.side, registered, more))
      decreases rest
    {
      var ref :| ref in rest;
      reg.Register(ref, more[ref]);
      ghost var made, call := Adds(reg.side, registered, more), AddExecutor(reg.side, ref, more[ref]);
      SinceThen(reg.journal, scene0, calls0, made, [call]);
      registered := registered + [ref];
      rest := rest - {ref};
      assert Adds(reg.side, registered, more) == made + [call];
    }
    assert more.Keys - rest == more.Keys;
  }

  method UnregisterAll(reg: ExecutorRegistry, registered: seq<string>)
    requires reg.Valid()
    modifies reg, reg.journal
    ensures reg.Valid()
    ensures reg.journal.Since(old(reg.journal.scene), old(reg.journal.calls), Drops(reg.side, registered))
  {
    hide DoAll;
    ghost var scene0, calls0 := reg.journal.scene, reg.journal.calls;
    NothingMade(reg.journal, Drops(reg.side, registered[..0]));
    for i := 0 to |registered|
      invariant reg.Valid()
      invariant reg.journal.Since(scene0, calls0, Drops(reg.side, registered[..i]))
    {
      reg.Unregister(registered[i]);
      ghost var made, call := Drops(reg.side, registered[..i]), DropExecutor(reg.side, registered[i]);
      SinceThen(reg.journal, scene0, calls0, made, [call]);
      assert Drops(reg.side, registered[..i + 1]) == made + [call];
    }
    assert registered[..|registered|] == registered;
  }

  /** Both sides of what a bundle registration writes to, on one record. */
  ghost predicate Together(s: CompositionService, actionReg: ExecutorRegistry, capabilityReg: ExecutorRegistry) {
    && actionReg.side == Actions && capabilityReg.side == Capabilities
    && actionReg.journal == s.journal && capabilityReg.journal == s.journal
  }

  /** The executors of both sides, actions first. */
  method PutExecutors(
    s: CompositionService, b: PluginBundle, actionReg: ExecutorRegistry, capabilityReg: ExecutorRegistry)
    returns (actionRefs: seq<string>, capabilityRefs: seq<string>)
    requires Together(s, actionReg, capabilityReg) && s.Valid() && actionReg.Valid() && capabilityReg.Valid()
    modifies actionReg, capabilityReg, s.journal
    ensures s.Valid() && actionReg.Valid() && capabilityReg.Valid()
    ensures Walk(actionRefs, b.actionExecutors.Keys) && Walk(capabilityRefs, b.capabilityExecutors.Keys)
    ensures s.journal.Since(old(s.journal.scene), old(s.journal.calls),
                            Adds(Actions, actionRefs, b.actionExecutors)
                            + Adds(Capabilities, capabilityRefs, b.capabilityExecutors))
  {
    hide DoAll, Adds, Walk, Part;
    actionRefs := RegisterAll(actionReg, b.actionExecutors);
    WalkedIn(actionRefs, b.actionExecutors);
    AddsEffect(old(s.journal.scene), Actions, actionRefs, b.actionExecutors);
    ghost var scene1 := s.journal.scene;
    capabilityRefs := RegisterAll(capabilityReg, b.capabilityExecutors);
    WalkedIn(capabilityRefs, b.capabilityExecutors);
    AddsEffect(scene1, Capabilities, capabilityRefs, b.capabilityExecutors);
    SinceThen(s.journal, old(s.journal.scene), old(s.journal.calls), Adds(Actions, actionRefs, b.actionExecutors),
              Adds(Capabilities, capabilityRefs, b.capabilityExecutors));
  }

  method TakeExecutors(
    s: CompositionService, actionReg: ExecutorRegistry, capabilityReg: ExecutorRegistry,
    actionRefs: seq<string>, capabilityRefs: seq<string>)
    requires Together(s, actionReg, capabilityReg) && s.Valid() && actionReg.Valid() && capabilityReg.Valid()
    modifies actionReg, capabilityReg, s.journal
    ensures s.Valid() && actionReg.Valid() && capabilityReg.Valid()
    ensures s.journal.Since(old(s.journal.scene), old(s.journal.calls),
                            Drops(Actions, actionRefs) + Drops(Capabilities, capabilityRefs))
  {
    hide DoAll, Drops;
    UnregisterAll(actionReg, actionRefs);
    DropsEffect(old(s.journal.scene), Actions, actionRefs);
    ghost var scene1 := s.journal.scene;
    UnregisterAll(capabilityReg, capabilityRefs);
    DropsEffect(scene1, Capabilities, capabilityRefs);
    SinceThen(s.journal, old(s.journal.scene), old(s.journal.calls), Drops(Actions, actionRefs),
              Drops(Capabilities, capabilityRefs));
  }

  /**
   * RegisterBundle: executors first, then the contribution, and the executors out again when it is refused.
   * The calls it makes are exactly these, in this order.
   */
  method RegisterBundle(
    s: CompositionService, b: PluginBundle, actionReg: ExecutorRegistry, capabilityReg: ExecutorRegistry,
    faults: Faults)
    returns (v: Verdict, ghost actionRefs: seq<string>, ghost capabilityRefs: seq<string>)
    requires Together(s, actionReg, capabilityReg) && s.Valid() && actionReg.Valid() && capabilityReg.Valid()
    requires Complete(b.Value())
    modifies s, b.contribution, actionReg, capabilityReg, s.journal
    ensures s.Valid() && actionReg.Valid() && capabilityReg.Valid()
    ensures v == Judge(old(s.View()), b.contribution.content, old(b.contribution.active), faults)
    ensures Walk(actionRefs, b.actionExecutors.Keys) && Walk(capabilityRefs, b.capabilityExecutors.Keys)
    ensures s.journal.Since(
              old(s.journal.scene), old(s.journal.calls),
              BundleCalls(old(s.View()), b.Value(), old(b.contribution.active), faults, actionRefs, capabilityRefs))
    ensures s.journal.scene == BundleOutcome(old(s.journal.scene), b.Value(), old(b.contribution.active), faults)
    ensures s.View() == if v.Accepted? then Added(old(s.View()), b.contribution.content) else old(s.View())
    ensures actionReg.executors == if v.Accepted? then old(actionReg.executors) + b.actionExecutors
                                   else old(actionReg.executors) - b.actionExecutors.Keys
    ensures capabilityReg.executors == if v.Accepted? then old(capabilityReg.executors) + b.capabilityExecutors
                                       else old(capabilityReg.executors) - b.capabilityExecutors.Keys
  {
    hide DoAll, Adds, Drops, Walk, ContributionCalls, Judge, Added, Complete, WellFormed;
    ghost var scene0, calls0 := s.journal.scene, s.journal.calls;
    ghost var p, active0 := b.Value(), b.contribution.active;
    assert p.actionExecutors == b.actionExecutors && p.capabilityExecutors == b.capabilityExecutors;
    CompleteContent(p);
    var registeredActions, registeredCapabilities := PutExecutors(s, b, actionReg, capabilityReg);
    actionRefs, capabilityRefs := registeredActions, registeredCapabilities;
    AddedExecutors(scene0, p, actionRefs, capabilityRefs);
    BundleEffect(scene0, p, active0, faults, actionRefs, capabilityRefs);
    ghost var adds := PutCalls(p, actionRefs, capabilityRefs);
    ContributionEffect(s.journal.scene, p.content, active0, faults);
    v := s.RegisterContribution(b.contribution, faults);
    ghost var mid := ContributionCalls(scene0.tables, p.content, active0, faults);
    SinceThen(s.journal, scene0, calls0, adds, mid);
    if v.Refused? {
      TakeExecutors(s, actionReg, capabilityReg, registeredActions, registeredCapabilities);
      ghost var drops := Drops(Actions, actionRefs) + Drops(Capabilities, capabilityRefs);
      SinceThen(s.journal, scene0, calls0, adds + mid, drops);
      return;
    }
    assert adds + mid + [] == adds + mid;
  }

  lemma CompleteContent(p: Parcel)
    requires Complete(p)
    ensures WellFormed(p.content)
  {
  }

  /**
   * Registering a live bundle again is refused, and its rollback takes the executors of the bundle's own,
   * still visible actions with it.
   */
  lemma LiveBundleTwice(w: Scene, p: Parcel, active: bool, faults: Faults, faults': Faults, i: nat)
    requires Complete(p) && Judge(w.tables, p.content, active, faults).Accepted? && i < |p.content.actions|
    ensures var w1 := BundleOutcome(w, p, active, faults);
            var w2 := BundleOutcome(w1, p, true, faults');
            var name := p.content.actions[i].name;
            && Judge(w1.tables, p.content, true, faults') == Refused(AlreadyRegistered)
            && name in w2.tables.actions && w2.tables.actions[name] == p.content.actions[i]
            && p.content.actions[i].ref in w1.actionExecutors && p.content.actions[i].ref !in w2.actionExecutors
            && !Resolves(Actions, w2)
  {
    var w1 := BundleOutcome(w, p, active, faults);
    var w2 := BundleOutcome(w1, p, true, faults');
    assert Holds(w1.tables.actions, p.content.actions[i]);
    assert p.content.actions[i].ref != "";
    assert w2.tables == w1.tables;
    assert Table(Actions, w2.tables)[p.content.actions[i].name].ref !in Registry(Actions, w2);
  }

  /** After a refusal the registries are what they were iff none of the bundle's references was taken. */
  lemma RollbackExact(executors0: Executors, more: Executors)
    ensures executors0 - more.Keys == executors0 <==> executors0.Keys !! more.Keys
  {
    if executors0 - more.Keys == executors0 {
      forall r | r in executors0.Keys ensures r !in more.Keys {
        assert r in executors0 - more.Keys;
      }
    }
  }
}
