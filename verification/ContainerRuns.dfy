// A simulation whose calls are all answered runs to its end, with or without a probe.
module ContainerRuns {
  import opened Outcomes
  import opened ContainerOwnership

  // The operation is where it should be, and the names it reserves are free.
  ghost predicate Stands(w: World, op: Op, config: Config, phase: Phase) {
    && op in w.configs && w.configs[op] == config && At(w, op, phase)
    && !NameTaken(w, Main(op)) && !NameTaken(w, Probe(op))
  }

  lemma Begun(steps: seq<Step>, op: Op, config: Config) returns (more: seq<Step>)
    requires Run(steps).Some? && op !in Run(steps).value.configs
    requires !NameTaken(Run(steps).value, Main(op)) && !NameTaken(Run(steps).value, Probe(op))
    ensures steps <= more && Run(more).Some? && Stands(Run(more).value, op, config, Recorded)
            && IntentComplete(Run(more).value, op)
  {
    var started := steps + [Start(op, config)];
    After(steps, Start(op, config));
    var w := Run(steps).value;
    assert Run(started) == Started(w, op, config);
    more := started + [WriteIntent(op, false)];
    After(started, WriteIntent(op, false));
    assert Run(more) == IntentWritten(Run(started).value, op, false);
    assert Run(more).value.containers == w.containers;
  }

  // A probe is created under its own name and label, and removed again.
  lemma Probes(steps: seq<Step>, op: Op, config: Config) returns (more: seq<Step>)
    requires Run(steps).Some? && Stands(Run(steps).value, op, config, Recorded) && config.transport
    ensures steps <= more && Run(more).Some? && Stands(Run(more).value, op, config, Probed)
    ensures exists k :: 0 <= k <= |more| && Shows(more, k, op, Probe(op), config)
  {
    RunKeepsInv(steps);
    var w := Run(steps).value;
    var id := Bound(w.used);
    var created := steps + [CreateProbe(op, id, true)];
    After(steps, CreateProbe(op, id, true));
    assert Run(created) == Some(Create(w, op, id, Probe(op), true, Probing(id)));
    more := created + [RemoveProbe(op, true, true)];
    After(created, RemoveProbe(op, true, true));
    CreatedGoes(w, op, id, Probe(op), Probing(id), Probed);
    assert Run(more) == Some(Remove(Run(created).value, op, id, true, true, Probed));
    assert more[..|created|] == created;
    assert Shows(more, |created|, op, Probe(op), config);
  }

  // After k steps a container of the operation stands under this name, made from its image.
  ghost predicate Shows(steps: seq<Step>, k: nat, op: Op, name: Name, config: Config)
    requires k <= |steps|
  {
    && Run(steps[..k]).Some?
    && exists id :: id in Run(steps[..k]).value.containers &&
                    Run(steps[..k]).value.containers[id] == Container(name, config.image, Some(op))
  }

  lemma CreatedGoes(w: World, op: Op, id: Id, name: Name, between: Phase, then_: Phase)
    requires op in w.configs && id !in w.containers
    ensures var n := Remove(Create(w, op, id, name, true, between), op, id, true, true, then_);
            n.containers == w.containers && n.configs == w.configs && At(n, op, then_)
    ensures var c := Create(w, op, id, name, true, between);
            id in c.containers && c.containers[id] == Container(name, w.configs[op].image, Some(op))
  {
    assert w.containers[id := Container(name, w.configs[op].image, Some(op))] - {id} == w.containers;
  }

  lemma Runs(steps: seq<Step>, op: Op, config: Config) returns (more: seq<Step>)
    requires Run(steps).Some? && Stands(Run(steps).value, op, config, if config.transport then Probed else Recorded)
    ensures steps <= more && Run(more).Some? && Stands(Run(more).value, op, config, Finished)
    ensures exists k :: 0 <= k <= |more| && Shows(more, k, op, Main(op), config)
  {
    RunKeepsInv(steps);
    var w := Run(steps).value;
    var id := Bound(w.used);
    var created := steps + [CreateMain(op, id, true)];
    After(steps, CreateMain(op, id, true));
    assert Run(created) == Some(Create(w, op, id, Main(op), true, Running(id)));
    more := created + [RemoveMain(op, true, true)];
    After(created, RemoveMain(op, true, true));
    CreatedGoes(w, op, id, Main(op), Running(id), Finished);
    assert Run(more) == Some(Remove(Run(created).value, op, id, true, true, Finished));
    assert more[..|created|] == created;
    assert Shows(more, |created|, op, Main(op), config);
  }

  // From every reachable state in which the operation is new and its names are free, a simulation can
  // go on to its end: its container stood under its name with its image and label, and none is left.
  lemma SimulationCanFinish(steps: seq<Step>, op: Op, config: Config) returns (more: seq<Step>)
    requires Run(steps).Some? && op !in Run(steps).value.configs
    requires !NameTaken(Run(steps).value, Main(op)) && !NameTaken(Run(steps).value, Probe(op))
    ensures steps <= more && Run(more).Some? && At(Run(more).value, op, Finished) && NoneLeft(Run(more).value, op)
    ensures exists k :: 0 <= k <= |more| && Shows(more, k, op, Main(op), config)
  {
    more := Begun(steps, op, config);
    if config.transport {
      more := Probes(more, op, config);
    }
    more := Runs(more, op, config);
    AbandonLeavesNone(more, op);
  }

  // One query of a clean-up: over nobody it goes on to the next name; over the operation's own container,
  // made from its image, it removes it; over anyone else's it stops and touches nothing.
  lemma QueryOutcome(w: World, op: Op, found: Option<Id>)
    requires Apply(w, Query(op, found)).Some?
    ensures var n := Apply(w, Query(op, found)).value; var at := w.phases[op]; var config := w.configs[op];
            var name := Names(op, config.transport)[at.next];
            && n.containers == w.containers
            && (found.None? ==> !NameTaken(w, name) && n.phases[op] == Reconciling(at.next + 1, at.quiet))
            && (found.Some? ==>
                  && found.value in w.containers && w.containers[found.value].name == name
                  && var own := w.containers[found.value].owner == Some(op)
                    && w.containers[found.value].image == config.image;
                     n.phases[op] == if own then Removing(at.next, found.value, at.quiet) else Stopped)
  {
  }
}
